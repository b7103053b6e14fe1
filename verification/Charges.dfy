/** Submissions and checks of resting orders decided in plain arithmetic: which orders fill, at
    what price, and what a fill costs at the configured leverage. */
module FillCharges {
  import opened Basics
  import opened Rounding
  import opened Accounts
  import opened Desk
  import opened Engine
  import opened Runs
  import opened Journal
  import opened PriceHistory
  import opened OrderOutcomes
  import opened LiquidationBounds
  import opened RunTheorems

  // ---------------------------------------------------------------- the arithmetic

  /** The market price is moved against the trader by the slippage, and by a tenth of a percent
      for every 500 units once the order is larger than 50. */
  lemma MarketPriceIs(cfg: Config, mid: real, side: Side, quantity: real)
    ensures var worse := cfg.slippageBps / 10000.0 + (if quantity > 50.0 then quantity / 500000.0 else 0.0);
            MarketPrice(cfg, mid, side, quantity) == mid * (if side == Buy then 1.0 + worse else 1.0 - worse)
  {
    var x, y := cfg.slippageBps / 10000.0, quantity / 500000.0;
    assert mid * cfg.slippageBps / 10000.0 == mid * x;
    assert mid * 0.001 * (quantity / TYPICAL_VOLUME) == mid * y;
    assert mid * (1.0 + (x + y)) == mid + mid * x + mid * y;
    assert mid * (1.0 - (x + y)) == mid - mid * x - mid * y;
    assert mid * (1.0 + x) == mid + mid * x && mid * (1.0 - x) == mid - mid * x;
  }

  function Percent(x: real, rate: real): real { x * rate / 100.0 }

  function Value(price: real, quantity: real): real { price * quantity }

  /** The balance covers margin and fee of a fill at `price`, and the position at `mark` is at most
      half of what the leveraged balance buys. */
  predicate Affords(cfg: Config, balance: real, price: real, mark: real, quantity: real)
  {
    var notional := Value(price, quantity);
    var margin := if cfg.leverage > 0 then notional / cfg.leverage as real else notional;
    margin + Percent(notional, cfg.feePct) <= balance && 2.0 * Value(mark, quantity) <= balance * cfg.leverage as real
  }

  lemma AffordsIff(cfg: Config, balance: real, price: real, mark: real, quantity: Qty)
    ensures Affords(cfg, balance, price, mark, quantity)
      <==> MarginCovers(cfg, balance, Notional(price, quantity)) && SizeAllowed(cfg, balance, Notional(mark, quantity))
  {
  }

  /** The fee is a percentage of the value at `raw`, rounded for resting orders; the margin times
      the leverage is that value, except that a forced close locks none. */
  predicate Charged(cfg: Config, f: Fill, raw: real, forced: bool, resting: bool)
  {
    var notional := Value(raw, f.quantity);
    && f.fee == (if resting then Round4(Percent(notional, cfg.feePct)) else Percent(notional, cfg.feePct))
    && if forced then f.margin == 0.0
       else (if cfg.leverage > 0 then f.margin * cfg.leverage as real else f.margin) == notional
  }

  /** What a trade hands on to the position it opens. */
  datatype Exits = Exits(stopLoss: Option<real>, takeProfit: Option<real>)

  const NO_EXITS := Exits(None, None)

  /** The account has posted exactly one trade, for this order. */
  predicate Trades(cfg: Config, a: Account, b: Account, id: nat, o: Order, quantity: real, raw: real, price: real,
                   forced: bool, resting: bool, exits: Exits)
  {
    var n := |a.journal|;
    |b.journal| == n + 1 && b.journal[n].Traded? &&
    var f := b.journal[n].fill;
    && b == Post(a, Traded(f)) && f.order == id && f.symbol == o.symbol && f.side == o.side
    && f.quantity == quantity && f.price == price && Charged(cfg, f, raw, forced, resting)
    && f.stopLoss == exits.stopLoss && f.takeProfit == exits.takeProfit
  }

  lemma FeeIs(cfg: Config, price: real, quantity: Qty)
    ensures Notional(price, quantity) == Value(price, quantity)
    ensures FeeOf(cfg, Notional(price, quantity)) == Percent(Value(price, quantity), cfg.feePct)
  {
  }

  lemma ImmediateTrades(cfg: Config, a: Account, id: nat, req: Request, o: Order, price: real)
    ensures var f := ImmediateFill(cfg, id, req, o, price);
            Trades(cfg, a, Post(a, Traded(f)), id, o, o.quantity, price,
                   RoundPrice(Averaged(price, o.side, o.quantity)), req.forceClose, false,
                   Exits(req.stopLoss, req.takeProfit))
  {
    hide Post, RoundPrice, Averaged;
    PostGrows(a, Traded(ImmediateFill(cfg, id, req, o, price)));
  }

  lemma RestingTrades(cfg: Config, a: Account, id: nat, o: Order, quantity: Qty, price: real)
    ensures Trades(cfg, a, Post(a, Traded(RestingFill(cfg, id, o, quantity, price))), id, o, quantity, price,
                   RoundPrice(price), false, true, NO_EXITS)
  {
    hide Post, RoundPrice, Round4;
    var f := RestingFill(cfg, id, o, quantity, price);
    PostGrows(a, Traded(f));
    var notional := Value(price, quantity);
    assert notional == Notional(price, quantity) && FeeOf(cfg, notional) == Percent(notional, cfg.feePct);
  }

  // ---------------------------------------------------------------- submission

  predicate Untraded(p: Order) { p.filledPrice == 0.0 && p.filledQuantity == 0.0 && p.fee == 0.0 }

  /** The order is filled and charged at `raw` if it is forced or affordable, and otherwise
      rejected with the account as it was. */
  predicate Taken(cfg: Config, st: State, r: State, p: Order, raw: real, mid: real, req: Request)
  {
    if req.forceClose || Affords(cfg, st.acct.balance, raw, mid, p.quantity) then
      && p.status == Filled && p.filledQuantity == p.quantity
      && p.filledPrice == RoundPrice(Averaged(raw, p.side, p.quantity))
      && p.fee == Round4(Percent(Value(raw, p.quantity), cfg.feePct))
      && Trades(cfg, st.acct, r.acct, st.desk.next, p, p.quantity, raw, p.filledPrice, req.forceClose, false,
                Exits(req.stopLoss, req.takeProfit))
    else p.status == Rejected && r.acct == st.acct
  }

  lemma FillNowTakes(cfg: Config, initial: real, st: State, req: Request, o: Order, price: real, mid: real)
    requires Good(initial, st) && Unresolved(st.desk, o.group) && o.status == Pending && !o.terms.Iceberg?
    requires Untraded(o)
    ensures var r := FillNow(cfg, st, req, o, price, mid);
            && st.desk.next in r.desk.orders
            && (r.desk.orders[st.desk.next].status != Filled ==> Untraded(r.desk.orders[st.desk.next]))
            && Taken(cfg, st, r, r.desk.orders[st.desk.next], price, mid, req)
  {
    hide Good, Enter, Averaged, RoundPrice, Round4, Post, Unresolved, MarginCovers, SizeAllowed, FeeOf, Affords;
    hide Charged, Notional, Value, Percent;
    var f := ImmediateFill(cfg, st.desk.next, req, o, price);
    AffordsIff(cfg, st.acct.balance, price, mid, o.quantity);
    FeeIs(cfg, price, o.quantity);
    ImmediateTrades(cfg, st.acct, st.desk.next, req, o, price);
    StoredAs(initial, st, o.(status := Rejected));
    StoredAs(initial, st,
             o.(status := Filled, filledPrice := f.price, filledQuantity := o.quantity, fee := Round4(f.fee)));
  }

  /** A group is open until one of its orders has won it. */
  predicate GroupOpen(d: Desk, g: Option<GroupId>)
  {
    g.None? || g.value !in d.groups || d.groups[g.value].winner.None?
  }

  /** Every submission that passes validation, decided: a closed group cancels it and a missing
      market rejects it; stop, trailing and iceberg orders rest; a limit order the market is not
      through rests unless it may not, and one it is through is refused to a maker, to a
      fill-or-kill without depth, and else filled at its limit; the others fill at the market. */
  predicate Decided(cfg: Config, st: State, r: State, req: Request, mid: real, depth: bool, p: Order)
  {
    var market := MarketPrice(cfg, mid, req.side, req.quantity);
    var priced := req.orderType == LimitOrder && req.price.Some?;
    var waits := req.orderType == StopLimitOrder || req.orderType == TrailingStopOrder || req.orderType == IcebergOrder;
    var through := priced && if req.side == Buy then market <= req.price.value else market >= req.price.value;
    if !GroupOpen(st.desk, req.group) then p.status == Cancelled && r.acct == st.acct
    else if mid == 0.0 then p.status == Rejected && r.acct == st.acct
    else if waits then p.status == Pending && r.acct == st.acct
    else if priced && !through then
      p.status == (if req.tif == IOC || req.tif == FOK then Cancelled else Pending) && r.acct == st.acct
    else if priced && req.postOnly then p.status == Rejected && r.acct == st.acct
    else if priced && req.tif == FOK && !depth then p.status == Cancelled && r.acct == st.acct
    else Taken(cfg, st, r, p, if priced then req.price.value else market, mid, req)
  }

  lemma SubmissionDecided(cfg: Config, initial: real, st: State, req: Request, mid: real, depth: bool)
    requires Good(initial, st) && Refuses(req).None?
    ensures var r := Submit(cfg, st, req, mid, depth); var id := st.desk.next;
      id in r.desk.orders && var p := r.desk.orders[id];
      p.symbol == req.symbol && p.side == req.side && p.quantity == req.quantity && p.group == req.group &&
      (p.status != Filled ==> Untraded(p)) &&
      Decided(cfg, st, r, req, mid, depth, p)
  {
    hide Good, Enter, SlicesOk, MarketPrice, Averaged, RoundPrice, Post, Unresolved, FillNow, Registered, Taken;
    var o := NewOrder(req);
    NewOrderSlices(req);
    RegisteredSlices(o, mid);
    StatusSlices(o, Rejected);
    StatusSlices(o, Cancelled);
    StoredAs(initial, st, o.(status := Rejected));
    StoredAs(initial, st, o.(status := Cancelled));
    OpenIff(st.desk, o.group);
    if Unresolved(st.desk, o.group) {
      if o.terms.Immediate? {
        var market := MarketPrice(cfg, mid, o.side, o.quantity);
        FillNowTakes(cfg, initial, st, req, o, market, mid);
        FillFate(cfg, initial, st, req, o, market, mid);
      } else if o.terms.AtLimit? {
        StoredAs(initial, st, o);
        FillNowTakes(cfg, initial, st, req, o, o.terms.price, mid);
        FillFate(cfg, initial, st, req, o, o.terms.price, mid);
      } else {
        RegisteredKind(o, mid);
        StoredAs(initial, st, o.(terms := Registered(o.terms, o.side, mid)));
      }
    }
  }

  lemma OpenIff(d: Desk, g: Option<GroupId>)
    ensures Unresolved(d, g) <==> GroupOpen(d, g)
  {
  }

  // ---------------------------------------------------------------- one check of one order

  /** The order is filled in full at `raw`, rounded to the tick, if it can be afforded, and
      otherwise rejected with the account as it was -- and counted once more, as it enters the
      history a second time. */
  predicate Worked(cfg: Config, st: State, r: State, id: nat, raw: real)
    requires id in st.desk.orders
  {
    id in r.desk.orders && var (o, p) := (st.desk.orders[id], r.desk.orders[id]);
    if Affords(cfg, st.acct.balance, raw, raw, o.quantity) then
      && p.status == Filled && p.filledQuantity == o.quantity && p.filledPrice == RoundPrice(raw)
      && p.fee == Round4(Percent(Value(raw, o.quantity), cfg.feePct))
      && Trades(cfg, st.acct, r.acct, id, o, o.quantity, raw, RoundPrice(raw), false, true, NO_EXITS)
    else
      var c := st.desk.counts;
      && p.status == Rejected && r.acct == st.acct
      && r.desk.counts == c.(submitted := c.submitted + 1, rejected := c.rejected + 2)
  }

  lemma ExecuteWorks(cfg: Config, initial: real, st: State, id: nat, t: Terms, price: real)
    requires Good(initial, st) && IsPending(st.desk, id)
    requires SameKind(t, st.desk.orders[id].terms) && !t.Iceberg?
    ensures Worked(cfg, st, Execute(cfg, st, id, t, price), id, price)
  {
    hide Reconciled, Sound, Matched, FillResting, Post, RoundPrice, Round4, MarginCovers, SizeAllowed, Affords, FeeOf;
    hide Trades, Notional, Value, Percent;
    FeeIs(cfg, price, st.desk.orders[id].quantity);
    OrderWatched(initial, st, id);
    var o := st.desk.orders[id];
    var f := RestingFill(cfg, id, o, o.quantity, price);
    AffordsIff(cfg, st.acct.balance, price, price, o.quantity);
    RestingTrades(cfg, st.acct, id, o, o.quantity, price);
    FillRestingSound(st.desk, id, t, f.price, o.quantity, f.fee);
  }

  lemma OrderWatched(initial: real, st: State, id: nat)
    requires Good(initial, st) && id in st.desk.orders
    ensures st.desk.orders[id].watched
  {
  }

  /** The order waits on, with these terms; nothing is traded. */
  predicate WaitsOn(st: State, r: State, id: nat, t: Terms)
    requires id in st.desk.orders
  {
    r.acct == st.acct && id in r.desk.orders && r.desk.orders[id] == st.desk.orders[id].(terms := t)
  }

  predicate Through(side: Side, mark: real, limit: real) { if side == Buy then mark <= limit else mark >= limit }

  lemma LimitTick(cfg: Config, initial: real, st: State, id: nat, prices: Symbol -> real, now: real)
    requires Good(initial, st) && IsPending(st.desk, id) && st.desk.orders[id].terms.AtLimit?
    ensures var (o, r) := (st.desk.orders[id], Tick(cfg, st, id, prices, now));
            var mark := prices(o.symbol);
            if o.terms.expireTs.Some? && now >= o.terms.expireTs.value then
              r.acct == st.acct && id in r.desk.orders && r.desk.orders[id] == o.(status := Cancelled)
            else if mark != 0.0 && Through(o.side, mark, o.terms.price) then Worked(cfg, st, r, id, o.terms.price)
            else r == st
  {
    hide Good, Execute, SameKind, Worked;
    var o := st.desk.orders[id];
    SameKindRefl(o.terms);
    ExecuteWorks(cfg, initial, st, id, o.terms, o.terms.price);
  }

  lemma StopLimitTick(cfg: Config, initial: real, st: State, id: nat, prices: Symbol -> real, now: real)
    requires Good(initial, st) && IsPending(st.desk, id) && st.desk.orders[id].terms.StopLimit?
    ensures var (o, r) := (st.desk.orders[id], Tick(cfg, st, id, prices, now));
            var mark := prices(o.symbol);
            var triggered := o.terms.triggered || if o.side == Sell then mark <= o.terms.stop else mark >= o.terms.stop;
            if mark == 0.0 then r == st
            else if triggered && Through(o.side, mark, o.terms.limit) then Worked(cfg, st, r, id, o.terms.limit)
            else WaitsOn(st, r, id, o.terms.(triggered := triggered))
  {
    hide Good, Execute, SameKind, Worked;
    var o := st.desk.orders[id];
    var mark := prices(o.symbol);
    var triggered := o.terms.triggered || StopReached(o.side, mark, o.terms.stop);
    TriggeredSameKind(o.terms, triggered);
    ExecuteWorks(cfg, initial, st, id, o.terms.(triggered := triggered), o.terms.limit);
  }

  /** A price made worse by some ten-thousandths of it. */
  function Worsened(mark: real, side: Side, bps: real): real
  {
    mark * (if side == Sell then 1.0 - bps / 10000.0 else 1.0 + bps / 10000.0)
  }

  lemma WorsenedIs(cfg: Config, side: Side, mark: real)
    ensures Slipped(cfg, side, mark) == Worsened(mark, side, cfg.slippageBps)
  {
  }

  /** A trailing stop fires at the level it has after the price, at that price less slippage. */
  lemma TrailingTick(cfg: Config, initial: real, st: State, id: nat, prices: Symbol -> real, now: real)
    requires Good(initial, st) && IsPending(st.desk, id) && st.desk.orders[id].terms.Trailing?
    ensures var (o, r) := (st.desk.orders[id], Tick(cfg, st, id, prices, now));
            var mark := prices(o.symbol);
            if mark == 0.0 then r == st
            else
              var t := Advance(o.terms, o.side, mark);
              if if o.side == Sell then mark <= t.level else mark >= t.level then
                Worked(cfg, st, r, id, Worsened(mark, o.side, cfg.slippageBps))
              else WaitsOn(st, r, id, t)
  {
    hide Good, Execute, Advance, SameKind, Worked, Slipped, Worsened;
    var o := st.desk.orders[id];
    var mark := prices(o.symbol);
    if mark != 0.0 {
      WorsenedIs(cfg, o.side, mark);
      AdvanceSameKind(o.terms, o.side, mark);
      ExecuteWorks(cfg, initial, st, id, Advance(o.terms, o.side, mark), Slipped(cfg, o.side, mark));
    }
  }

  /** An iceberg with something hidden is sliced at its floor once the market is through it, and
      at the market if it has none: by its visible size, or what is hidden if that is less. */
  lemma IcebergTick(cfg: Config, initial: real, st: State, id: nat, prices: Symbol -> real, now: real)
    requires Good(initial, st) && IsPending(st.desk, id) && st.desk.orders[id].terms.Iceberg?
    ensures var (o, r) := (st.desk.orders[id], Tick(cfg, st, id, prices, now));
            var mark := prices(o.symbol);
            if mark == 0.0 || (o.terms.floor.Some? && !Through(o.side, mark, o.terms.floor.value)) then r == st
            else SlicedAt(cfg, st, r, id, if o.terms.floor.Some? then o.terms.floor.value else mark)
  {
    hide Slice, SlicedAt;
    var o := st.desk.orders[id];
    var mark := prices(o.symbol);
    PendingHides(initial, st, id);
    hide Good;
    SliceWorks(cfg, initial, st, id, mark);
    if o.terms.floor.Some? { SliceWorks(cfg, initial, st, id, o.terms.floor.value); }
  }

  lemma PendingHides(initial: real, st: State, id: nat)
    requires Good(initial, st) && IsPending(st.desk, id) && st.desk.orders[id].terms.Iceberg?
    ensures st.desk.orders[id].terms.hidden > 0.0
  {
  }

  /** One slice traded at `raw`, or refused with the account and the order as they were. */
  predicate SlicedAt(cfg: Config, st: State, r: State, id: nat, raw: real)
    requires id in st.desk.orders && st.desk.orders[id].terms.Iceberg?
  {
    id in r.desk.orders && var (o, p) := (st.desk.orders[id], r.desk.orders[id]);
    var quantity := if o.terms.visible <= o.terms.hidden then o.terms.visible else o.terms.hidden;
    if Affords(cfg, st.acct.balance, raw, raw, quantity) then
      && p == o.(terms := o.terms.(hidden := o.terms.hidden - quantity, slices := o.terms.slices + 1),
                 status := if o.terms.hidden == quantity then Filled else Pending,
                 filledQuantity := if o.terms.hidden == quantity then o.quantity else o.filledQuantity)
      && Trades(cfg, st.acct, r.acct, id, o, quantity, raw, RoundPrice(raw), false, true, NO_EXITS)
    else
      var c := st.desk.counts;
      r.acct == st.acct && r.desk == st.desk.(counts := c.(submitted := c.submitted + 1, rejected := c.rejected + 1))
  }

  lemma SliceWorks(cfg: Config, initial: real, st: State, id: nat, price: real)
    requires Good(initial, st) && IsPending(st.desk, id)
    requires st.desk.orders[id].terms.Iceberg? && st.desk.orders[id].terms.hidden > 0.0
    ensures SlicedAt(cfg, st, Slice(cfg, st, id, price), id, price)
  {
    hide Reconciled, Sound, Matched, FillResting, Post, RoundPrice, Round4, MarginCovers, SizeAllowed, Affords, FeeOf;
    hide Trades, SlicesOk;
    var o := st.desk.orders[id];
    var quantity: Qty := Min(o.terms.visible, o.terms.hidden);
    var t := o.terms.(hidden := o.terms.hidden - quantity, slices := o.terms.slices + 1);
    AffordsIff(cfg, st.acct.balance, price, price, quantity);
    RestingTrades(cfg, st.acct, id, o, quantity, price);
    PendingSlices(initial, st, id);
    SliceCounts(o, quantity);
    if t.hidden <= 0.0 { FillRestingSound(st.desk, id, t, o.filledPrice, o.quantity, o.fee); }
  }

  // ---------------------------------------------------------------- what a fill does to a position

  /** A position with a stop two percent against it and a target four percent in its favour,
      where the trade does not say otherwise. */
  predicate OpenedBy(q: Position, f: Fill, quantity: real, margin: real, exits: Exits)
  {
    var toward := if f.side == Buy then f.price else -f.price;
    && q.symbol == f.symbol && q.side == f.side && q.quantity == quantity && q.entry == f.price && q.margin == margin
    && q.stopLoss == (if exits.stopLoss.Some? then exits.stopLoss.value else f.price - 0.02 * toward)
    && q.takeProfit == (if exits.takeProfit.Some? then exits.takeProfit.value else f.price + 0.04 * toward)
  }

  /** A fill opens a position, adds to one at the average price, takes its quantity off an opposite
      one, or closes that and opens the rest the other way -- unless the rest is dust. */
  lemma PositionAfterFill(a: Account, f: Fill)
    requires OnePerSymbol(a.positions)
    ensures var (was, now) := (Lookup(a.positions, f.symbol), Lookup(Post(a, Traded(f)).positions, f.symbol));
      if was.None? then
        now.Some? && OpenedBy(now.value, f, f.quantity, f.margin, Exits(f.stopLoss, f.takeProfit))
      else
        var p := was.value;
        if p.side == f.side then
          && now.Some?
          && now.value == p.(quantity := p.quantity + f.quantity, entry := now.value.entry,
                             margin := p.margin + f.margin)
          && now.value.entry * now.value.quantity == p.entry * p.quantity + f.price * f.quantity
        else if f.quantity < p.quantity then
          && now.Some? && now.value == p.(quantity := p.quantity - f.quantity, margin := now.value.margin)
          && now.value.margin * p.quantity == p.margin * now.value.quantity
        else if f.quantity - p.quantity <= 0.000000000001 then now.None?
        else
          && now.Some? && OpenedBy(now.value, f, f.quantity - p.quantity, now.value.margin, NO_EXITS)
          && now.value.margin * f.quantity == f.margin * now.value.quantity
  {
    hide OnePerSymbol, Lookup, UpdatePosition, OpenedBy, NewPosition, Residual, Enlarged, Reduced, Accounts.Without;
    var b, i := Journal.Charged(a, f), IndexOf(a.positions, f.symbol);
    FillLeads(b, f);
    if i == |a.positions| {
      NewPositionIs(f);
      LookupAppended(a.positions, NewPosition(f), f.symbol);
    } else {
      var p := a.positions[i];
      if p.side == f.side {
        EnlargedIs(p, f);
        LookupReplaced(a.positions, Enlarged(p, f), f.symbol);
      } else if f.quantity < p.quantity {
        ReducedIs(p, f);
        LookupReplaced(a.positions, Reduced(p, f), f.symbol);
      } else {
        LookupWithout(a.positions, f.symbol);
        if f.quantity - p.quantity > DUST {
          ResidualIs(f, p.quantity);
          LookupAppended(Accounts.Without(a.positions, i), Residual(f, p.quantity), f.symbol);
        }
      }
    }
  }

  /** A fill closes something exactly when it meets an opposite position; then one trade is counted,
      as won if the price moved in the position's direction, and the profit on what was closed is
      booked. */
  lemma CloseBooked(a: Account, f: Fill)
    ensures var (was, r) := (Lookup(a.positions, f.symbol), Post(a, Traded(f)));
      if was.None? || was.value.side == f.side then
        r.totalTrades == a.totalTrades && r.winningTrades == a.winningTrades && r.totalPnl == a.totalPnl
      else
        var p := was.value;
        var closed := if f.quantity < p.quantity then f.quantity else p.quantity;
        var move := if p.side == Buy then f.price - p.entry else p.entry - f.price;
        && r.totalTrades == a.totalTrades + 1
        && r.winningTrades == a.winningTrades + (if move > 0.0 then 1 else 0)
        && r.totalPnl == a.totalPnl + move * closed
  {
    hide Residual, Enlarged, Reduced, NewPosition, Accounts.Without;
  }

  predicate Closes(a: Account, e: Entry)
  {
    e.Traded? &&
    var was := Lookup(a.positions, e.fill.symbol); was.Some? && was.value.side != e.fill.side
  }

  /** Postings that closed something of a position. */
  function ClosesIn(initial: real, es: seq<Entry>): nat
    decreases |es|
  {
    if es == [] then 0
    else
      var before := es[..|es| - 1];
      ClosesIn(initial, before) + (if Closes(Replayed(initial, before), es[|es| - 1]) then 1 else 0)
  }

  lemma {:induction false} ReplayedTrades(initial: real, es: seq<Entry>)
    ensures Replayed(initial, es).totalTrades == ClosesIn(initial, es)
    ensures Replayed(initial, es).winningTrades <= Replayed(initial, es).totalTrades
    decreases |es|
  {
    hide Post, Lookup;
    if es != [] {
      var before, e := es[..|es| - 1], es[|es| - 1];
      ReplayedTrades(initial, before);
      if e.Traded? { CloseBooked(Replayed(initial, before), e.fill); }
      else { NotTraded(Replayed(initial, before), e); }
    } else {
      NoTrades(initial);
    }
  }

  lemma NotTraded(a: Account, e: Entry)
    requires !e.Traded?
    ensures Post(a, e).totalTrades == a.totalTrades && Post(a, e).winningTrades == a.winningTrades
  {
  }

  lemma NoTrades(initial: real)
    ensures Opened(initial).totalTrades == 0 && Opened(initial).winningTrades == 0
  {
  }

  /** In every reachable state the trades counted are the closing fills of its journal. */
  lemma TradesCounted(cfg: Config, initial: real, evs: seq<Event>)
    ensures var a := Run(cfg, Start(initial), evs).acct;
            a.totalTrades == ClosesIn(initial, a.journal) && a.winningTrades <= a.totalTrades
  {
    hide Run, Replayed, ClosesIn, Sound, Matched;
    ReachableGood(cfg, initial, evs);
    ReplayedTrades(initial, Run(cfg, Start(initial), evs).acct.journal);
  }

  /** The list of positions after a fill, case by case. */
  lemma FillLeads(a: Account, f: Fill)
    ensures var i, qs := IndexOf(a.positions, f.symbol), UpdatePosition(a, f).positions;
      if i == |a.positions| then
        Lookup(a.positions, f.symbol) == None && qs == a.positions + [NewPosition(f)]
      else
        Lookup(a.positions, f.symbol) == Some(a.positions[i]) &&
        var p := a.positions[i];
        if p.side == f.side then qs == a.positions[i := Enlarged(p, f)]
        else if f.quantity < p.quantity then qs == a.positions[i := Reduced(p, f)]
        else if f.quantity - p.quantity > DUST then qs == Accounts.Without(a.positions, i) + [Residual(f, p.quantity)]
        else qs == Accounts.Without(a.positions, i)
  {
    hide NewPosition, Residual, Enlarged, Reduced, Accounts.Without;
  }

  lemma LookupAppended(ps: seq<Position>, q: Position, s: Symbol)
    requires Lookup(ps, s) == None && OnePerSymbol(ps) && q.symbol == s
    ensures Lookup(ps + [q], s) == Some(q)
  {
    assert forall k :: 0 <= k < |ps| ==> (ps + [q])[k] == ps[k];
    LookupOf(ps + [q], s, q);
  }

  lemma LookupReplaced(ps: seq<Position>, q: Position, s: Symbol)
    requires OnePerSymbol(ps) && q.symbol == s && IndexOf(ps, s) < |ps|
    ensures Lookup(ps[IndexOf(ps, s) := q], s) == Some(q)
  {
    var i := IndexOf(ps, s);
    var qs := ps[i := q];
    assert qs[i] == q && q in qs;
    assert forall k :: 0 <= k < |ps| ==> qs[k].symbol == ps[k].symbol;
    LookupOf(qs, s, q);
  }

  lemma LookupWithout(ps: seq<Position>, s: Symbol)
    requires OnePerSymbol(ps) && IndexOf(ps, s) < |ps|
    ensures Lookup(Accounts.Without(ps, IndexOf(ps, s)), s) == None
    ensures OnePerSymbol(Accounts.Without(ps, IndexOf(ps, s)))
  {
    LookupNone(Accounts.Without(ps, IndexOf(ps, s)), s);
  }

  lemma NewPositionIs(f: Fill)
    ensures NewPosition(f).symbol == f.symbol
    ensures OpenedBy(NewPosition(f), f, f.quantity, f.margin, Exits(f.stopLoss, f.takeProfit))
  {
  }

  lemma ResidualIs(f: Fill, closed: Qty)
    requires f.quantity > closed
    ensures var q := Residual(f, closed);
            && q.symbol == f.symbol && OpenedBy(q, f, f.quantity - closed, q.margin, NO_EXITS)
            && q.margin * f.quantity == f.margin * q.quantity
  {
    var share := closed / f.quantity;
    assert share * f.quantity == closed;
    assert (f.margin - f.margin * share) * f.quantity == f.margin * f.quantity - f.margin * (share * f.quantity);
  }

  lemma ReducedIs(p: Position, f: Fill)
    requires f.quantity < p.quantity
    ensures var q := Reduced(p, f);
            && q == p.(quantity := p.quantity - f.quantity, margin := q.margin)
            && q.margin * p.quantity == p.margin * q.quantity
  {
    var share := f.quantity / p.quantity;
    assert share * p.quantity == f.quantity;
    assert (p.margin - p.margin * share) * p.quantity == p.margin * p.quantity - p.margin * (share * p.quantity);
  }

  lemma EnlargedIs(p: Position, f: Fill)
    ensures var q := Enlarged(p, f);
            && q == p.(quantity := p.quantity + f.quantity, entry := q.entry, margin := p.margin + f.margin)
            && q.entry * q.quantity == p.entry * p.quantity + f.price * f.quantity
  {
  }

  // ---------------------------------------------------------------- every fill of a run

  /** The fill was charged for some price it was made at, before that was averaged and rounded. */
  ghost predicate ChargedAt(cfg: Config, f: Fill, raw: real, forced: bool)
  {
    || (f.price == RoundPrice(raw) && Charged(cfg, f, raw, forced, true))
    || (f.price == RoundPrice(Averaged(raw, f.side, f.quantity)) && Charged(cfg, f, raw, forced, false))
  }

  ghost predicate Priced(cfg: Config, f: Fill, forced: bool) { exists raw :: ChargedAt(cfg, f, raw, forced) }

  /** Every trade posted after the first `n` entries is charged as a forced close, or as any other. */
  ghost predicate PricedFrom(cfg: Config, es: seq<Entry>, n: nat, forced: bool)
  {
    forall k :: n <= k < |es| && es[k].Traded? ==> Priced(cfg, es[k].fill, forced)
  }

  ghost predicate Extends(cfg: Config, a: Account, b: Account, forced: bool)
  {
    LiquidationBounds.Grows(a, b) && PricedFrom(cfg, b.journal, |a.journal|, forced)
  }

  lemma ExtendsRefl(cfg: Config, a: Account, forced: bool)
    ensures Extends(cfg, a, a, forced)
  {
  }

  lemma ExtendsTrans(cfg: Config, a: Account, b: Account, c: Account, forced: bool)
    requires Extends(cfg, a, b, forced) && Extends(cfg, b, c, forced)
    ensures Extends(cfg, a, c, forced)
  {
    hide Priced;
  }

  lemma PostExtends(cfg: Config, a: Account, e: Entry, forced: bool)
    requires e.Traded? ==> Priced(cfg, e.fill, forced)
    ensures Extends(cfg, a, Post(a, e), forced)
  {
    hide Post, Priced;
    PostGrows(a, e);
  }

  lemma FillNowExtends(cfg: Config, st: State, req: Request, o: Order, price: real, mid: real)
    ensures Extends(cfg, st.acct, FillNow(cfg, st, req, o, price, mid).acct, req.forceClose)
  {
    hide Post, Enter, RoundPrice, Averaged, Round4, MarginCovers, SizeAllowed, FeeOf, Notional, Lever, Charged, Extends;
    var f := ImmediateFill(cfg, st.desk.next, req, o, price);
    ImmediateTrades(cfg, st.acct, st.desk.next, req, o, price);
    PostGrows(st.acct, Traded(f));
    assert ChargedAt(cfg, f, price, req.forceClose);
    PostExtends(cfg, st.acct, Traded(f), req.forceClose);
    ExtendsRefl(cfg, st.acct, req.forceClose);
  }

  lemma SubmitExtends(cfg: Config, st: State, req: Request, mid: real, depth: bool)
    ensures Extends(cfg, st.acct, Submit(cfg, st, req, mid, depth).acct, req.forceClose)
  {
    hide FillNow, Enter, MarketPrice, Marketable, Registered, Unresolved, Extends;
    ExtendsRefl(cfg, st.acct, req.forceClose);
    if Refuses(req).None? {
      var o := NewOrder(req);
      FillNowExtends(cfg, st, req, o, MarketPrice(cfg, mid, o.side, o.quantity), mid);
      if o.terms.AtLimit? { FillNowExtends(cfg, st, req, o, o.terms.price, mid); }
    }
  }

  lemma RestingExtends(cfg: Config, a: Account, id: nat, o: Order, quantity: Qty, price: real)
    ensures Extends(cfg, a, Post(a, Traded(RestingFill(cfg, id, o, quantity, price))), false)
  {
    hide Post, RoundPrice, Averaged, Round4, FeeOf, Notional, Lever, Charged, Extends;
    var f := RestingFill(cfg, id, o, quantity, price);
    RestingTrades(cfg, a, id, o, quantity, price);
    PostGrows(a, Traded(f));
    assert ChargedAt(cfg, f, price, false);
    PostExtends(cfg, a, Traded(f), false);
  }

  lemma ExecuteExtends(cfg: Config, st: State, id: nat, t: Terms, price: real)
    requires id in st.desk.orders
    ensures Extends(cfg, st.acct, Execute(cfg, st, id, t, price).acct, false)
  {
    hide Post, FillResting, RejectResting, Retune, RestingFill, MarginCovers, SizeAllowed, Extends;
    var o := st.desk.orders[id];
    ExtendsRefl(cfg, st.acct, false);
    RestingExtends(cfg, st.acct, id, o, o.quantity, price);
  }

  lemma SliceExtends(cfg: Config, st: State, id: nat, price: real)
    requires id in st.desk.orders && st.desk.orders[id].terms.Iceberg? && st.desk.orders[id].terms.hidden > 0.0
    ensures Extends(cfg, st.acct, Slice(cfg, st, id, price).acct, false)
  {
    hide Post, FillResting, Retune, RestingFill, MarginCovers, SizeAllowed, Extends;
    var o := st.desk.orders[id];
    ExtendsRefl(cfg, st.acct, false);
    RestingExtends(cfg, st.acct, id, o, Min(o.terms.visible, o.terms.hidden), price);
  }

  lemma TickExtends(cfg: Config, st: State, id: nat, prices: Symbol -> real, now: real)
    ensures Extends(cfg, st.acct, Tick(cfg, st, id, prices, now).acct, false)
  {
    hide Execute, Slice, Retune, CancelResting, Marketable, StopReached, Advance, Slipped, Extends;
    ExtendsRefl(cfg, st.acct, false);
    if IsPending(st.desk, id) {
      var o := st.desk.orders[id];
      var price := prices(o.symbol);
      match o.terms
      case Immediate =>
      case AtLimit(limit, _) => ExecuteExtends(cfg, st, id, o.terms, limit);
      case StopLimit(stop, limit, triggered) =>
        ExecuteExtends(cfg, st, id, o.terms.(triggered := triggered || StopReached(o.side, price, stop)), limit);
      case Trailing(_, _, _, _, _, _) =>
        if price != 0.0 {
          ExecuteExtends(cfg, st, id, Advance(o.terms, o.side, price), Slipped(cfg, o.side, price));
        }
      case Iceberg(floor, _, hidden, _) =>
        if hidden > 0.0 {
          SliceExtends(cfg, st, id, price);
          if floor.Some? { SliceExtends(cfg, st, id, floor.value); }
        }
    }
  }

  lemma {:induction false} SweepExtends(cfg: Config, st: State, ids: seq<nat>, prices: Symbol -> real, now: real)
    ensures Extends(cfg, st.acct, Sweep(cfg, st, ids, prices, now).acct, false)
    decreases |ids|
  {
    hide Tick, Extends;
    ExtendsRefl(cfg, st.acct, false);
    if ids != [] {
      var m := Tick(cfg, st, ids[0], prices, now);
      TickExtends(cfg, st, ids[0], prices, now);
      SweepExtends(cfg, m, ids[1..], prices, now);
      ExtendsTrans(cfg, st.acct, m.acct, Sweep(cfg, m, ids[1..], prices, now).acct, false);
    }
  }

  lemma CheckAdvancedExtends(cfg: Config, st: State, prices: Symbol -> real, now: real)
    ensures Extends(cfg, st.acct, CheckAdvanced(cfg, st, prices, now).acct, false)
  {
    hide Sweep, Extends;
    var a := Sweep(cfg, st, st.desk.books.limits, prices, now);
    var b := Sweep(cfg, a, a.desk.books.stops, prices, now);
    var c := Sweep(cfg, b, b.desk.books.trails, prices, now);
    var d := Sweep(cfg, c, c.desk.books.icebergs, prices, now);
    SweepExtends(cfg, st, st.desk.books.limits, prices, now);
    SweepExtends(cfg, a, a.desk.books.stops, prices, now);
    SweepExtends(cfg, b, b.desk.books.trails, prices, now);
    SweepExtends(cfg, c, c.desk.books.icebergs, prices, now);
    ExtendsTrans(cfg, st.acct, a.acct, b.acct, false);
    ExtendsTrans(cfg, st.acct, b.acct, c.acct, false);
    ExtendsTrans(cfg, st.acct, c.acct, d.acct, false);
  }

  lemma {:induction false} CloseAllExtends(cfg: Config, st: State, ts: seq<Trigger>, prices: Symbol -> real)
    ensures Extends(cfg, st.acct, CloseAll(cfg, st, ts, prices).acct, true)
    decreases |ts|
  {
    hide Submit, Post, Extends;
    ExtendsRefl(cfg, st.acct, true);
    if ts != [] {
      var t := ts[0];
      var closed := Submit(cfg, st, CloseRequest(t), prices(t.symbol), true).acct;
      var m := CloseTriggered(cfg, st, t, prices(t.symbol));
      SubmitExtends(cfg, st, CloseRequest(t), prices(t.symbol), true);
      ExtendsRefl(cfg, closed, true);
      PostExtends(cfg, closed, Covered(-closed.balance), true);
      ExtendsTrans(cfg, st.acct, closed, m.acct, true);
      CloseAllExtends(cfg, m, ts[1..], prices);
      ExtendsTrans(cfg, st.acct, m.acct, CloseAll(cfg, m, ts[1..], prices).acct, true);
    }
  }

  lemma {:induction false} FundingExtends(cfg: Config, a: Account, ps: seq<Position>, prices: Symbol -> real,
                                          rate: real)
    ensures Extends(cfg, a, Accounts.ChargeFunding(a, ps, prices, rate), false)
    decreases |ps|
  {
    hide Post, FundingPayment, Extends;
    ExtendsRefl(cfg, a, false);
    if ps != [] {
      var e := Funded(FundingPayment(ps[0].side, ps[0].quantity, prices(ps[0].symbol), rate));
      PostExtends(cfg, a, e, false);
      FundingExtends(cfg, Post(a, e), ps[1..], prices, rate);
      ExtendsTrans(cfg, a, Post(a, e), Accounts.ChargeFunding(Post(a, e), ps[1..], prices, rate), false);
    }
  }

  /** Whether the trades of an event are forced closes. */
  predicate Forces(ev: Event) { ev.StopCheck? || (ev.Submission? && ev.req.forceClose) }

  lemma StepExtends(cfg: Config, st: State, ev: Event)
    ensures Extends(cfg, st.acct, Step(cfg, st, ev).acct, Forces(ev))
  {
    hide Submit, CheckAdvanced, CloseAll, Triggers, CancelAll, Cancel, Accounts.ChargeFunding, Extends;
    match ev
    case Submission(req, mid, depth) => SubmitExtends(cfg, st, req, mid, depth);
    case AdvancedCheck(prices, now) => CheckAdvancedExtends(cfg, st, prices, now);
    case StopCheck(prices) => CloseAllExtends(cfg, st, Triggers(cfg, st.acct.positions, prices), prices);
    case FundingCharge(prices, rate) => FundingExtends(cfg, st.acct, st.acct.positions, prices, rate);
    case CancelOrder(_) => ExtendsRefl(cfg, st.acct, false);
    case CancelOrders(_) => ExtendsRefl(cfg, st.acct, false);
  }

  /** Over any run every trade is charged exactly: a fee of the configured percentage, and a margin
      that times the leverage is its value -- none only if a close was forced. */
  lemma {:induction false} EveryFillCharged(cfg: Config, initial: real, evs: seq<Event>, k: nat)
    requires var j := Run(cfg, Start(initial), evs).acct.journal; k < |j| && j[k].Traded?
    ensures var f := Run(cfg, Start(initial), evs).acct.journal[k].fill; Priced(cfg, f, true) || Priced(cfg, f, false)
    ensures (forall i :: 0 <= i < |evs| ==> !Forces(evs[i])) ==>
              Priced(cfg, Run(cfg, Start(initial), evs).acct.journal[k].fill, false)
  {
    hide Run, Priced;
    RunPriced(cfg, Start(initial), evs);
  }

  lemma {:induction false} RunPriced(cfg: Config, st: State, evs: seq<Event>)
    ensures var r := Run(cfg, st, evs).acct;
            && LiquidationBounds.Grows(st.acct, r)
            && (forall k :: |st.acct.journal| <= k < |r.journal| && r.journal[k].Traded? ==>
                  Priced(cfg, r.journal[k].fill, true) || Priced(cfg, r.journal[k].fill, false))
            && ((forall i :: 0 <= i < |evs| ==> !Forces(evs[i])) ==>
                  PricedFrom(cfg, r.journal, |st.acct.journal|, false))
    decreases |evs|
  {
    hide Step, Priced, Forces;
    if evs != [] {
      var m := Step(cfg, st, evs[0]);
      StepExtends(cfg, st, evs[0]);
      RunPriced(cfg, m, evs[1..]);
      var r := Run(cfg, m, evs[1..]).acct;
      if forall i :: 0 <= i < |evs| ==> !Forces(evs[i]) {
        assert forall i :: 0 <= i < |evs[1..]| ==> evs[1..][i] == evs[i + 1];
        assert !Forces(evs[0]);
        ExtendsTrans(cfg, st.acct, m.acct, r, false);
      }
    }
  }
}
