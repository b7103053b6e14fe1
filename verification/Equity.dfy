/** At fixed market prices no trading gains equity: whatever is submitted, checked, closed or
    cancelled, every fill of every order type is at a price no better than the mark. */
module EquityAtFixedMarks {
  import opened Basics
  import opened Rounding
  import opened Accounts
  import opened Journal
  import opened Desk
  import opened Engine
  import opened Runs

  // ---------------------------------------------------------------- conditions a caller can check

  predicate SaneConfig(cfg: Config) { cfg.feePct >= 0.0 && cfg.slippageBps >= 0.0 }

  /** Market prices as the simulator quotes them: on the tick grid and not negative. */
  ghost predicate Quoted(marks: Symbol -> real)
  {
    forall s :: marks(s) >= 0.0 && OnTick(marks(s))
  }

  /** Slippage and impact do not eat the whole price of a market sale of this size. */
  predicate SellSizeOk(cfg: Config, quantity: real)
  {
    var ratio := quantity / TYPICAL_VOLUME;
    cfg.slippageBps / 10000.0 + (if ratio > 0.1 then 0.001 * ratio else 0.0) <= 1.0
  }

  predicate NotNegative(p: Option<real>) { p.Some? ==> p.value >= 0.0 }

  /** Fills at the market price as soon as it is submitted. */
  predicate AtMarket(req: Request)
  {
    req.orderType == MarketOrder || req.orderType == OcoOrder || (req.orderType == LimitOrder && req.price.None?)
  }

  /** Limits are not negative, and a sale at the market keeps a price: at once if it is of a size
      that `SellSizeOk` allows, later by a trailing stop if slippage alone leaves some. */
  predicate ProperRequest(cfg: Config, req: Request)
  {
    && NotNegative(req.price) && NotNegative(req.limitPrice)
    && (req.side == Sell && AtMarket(req) ==> SellSizeOk(cfg, req.quantity))
    && (req.side == Sell && req.orderType == TrailingStopOrder ==> cfg.slippageBps <= 10000.0)
  }

  predicate ProperOrder(cfg: Config, o: Order)
  {
    NotNegative(LimitOf(o.terms)) && (o.terms.Trailing? && o.side == Sell ==> cfg.slippageBps <= 10000.0)
  }

  ghost predicate ProperDesk(cfg: Config, d: Desk)
  {
    forall id :: IsPending(d, id) ==> ProperOrder(cfg, d.orders[id])
  }

  // ---------------------------------------------------------------- prices against the mark

  /** `price` is no better than the mark for this side, and not negative. */
  predicate NoBetter(side: Side, price: real, mark: real)
  {
    price >= 0.0 && if side == Buy then price >= mark else price <= mark
  }

  lemma Scaled(p: real, x: real, y: real)
    requires p >= 0.0
    ensures x <= y ==> p * x <= p * y
  {
  }

  lemma SlippedNoBetter(cfg: Config, side: Side, price: real)
    requires SaneConfig(cfg) && price >= 0.0 && (side == Sell ==> cfg.slippageBps <= 10000.0)
    ensures NoBetter(side, Slipped(cfg, side, price), price)
  {
  }

  /** Slippage and impact never help, whatever the size. */
  lemma MarketPriceBound(cfg: Config, mid: real, side: Side, quantity: Qty)
    requires SaneConfig(cfg) && mid >= 0.0
    ensures if side == Buy then MarketPrice(cfg, mid, side, quantity) >= mid
            else MarketPrice(cfg, mid, side, quantity) <= mid
  {
    var ratio := quantity / TYPICAL_VOLUME;
    Scaled(mid, 0.0, cfg.slippageBps);
    Scaled(mid * 0.001, 0.0, ratio);
  }

  lemma MarketPriceNoBetter(cfg: Config, mid: real, side: Side, quantity: Qty)
    requires SaneConfig(cfg) && mid >= 0.0 && (side == Sell ==> SellSizeOk(cfg, quantity))
    ensures NoBetter(side, MarketPrice(cfg, mid, side, quantity), mid)
  {
    var x, ratio := cfg.slippageBps / 10000.0, quantity / TYPICAL_VOLUME;
    var y := if ratio > 0.1 then 0.001 * ratio else 0.0;
    assert mid * cfg.slippageBps / 10000.0 == mid * x;
    assert mid * 0.001 * ratio == mid * (0.001 * ratio);
    assert mid * x + mid * y == mid * (x + y) >= 0.0;
    Scaled(mid, x + y, 1.0);
  }

  /** The averaging of large orders only moves the price further to the bad side. */
  lemma AveragedNoBetter(price: real, side: Side, quantity: Qty, mark: real)
    requires NoBetter(side, price, mark)
    ensures if side == Buy then Averaged(price, side, quantity) >= mark else Averaged(price, side, quantity) <= mark
  {
  }

  lemma AverageGap(x: real, y: real, r: real)
    ensures x * r + y * (1.0 - r) == x + (y - x) * (1.0 - r)
  {
  }

  /** The sizes a sell order may have are exactly those whose market price stays non-negative. */
  lemma SellPriceSignIff(cfg: Config, mid: real, quantity: Qty)
    requires mid > 0.0
    ensures MarketPrice(cfg, mid, Sell, quantity) >= 0.0 <==> SellSizeOk(cfg, quantity)
  {
  }

  /** The average of an immediate fill, before it is rounded, lies strictly past its limit exactly
      when the order is larger than the typical volume. */
  lemma AveragedPastLimitIff(limit: real, side: Side, quantity: Qty)
    requires limit > 0.0
    ensures (if side == Buy then Averaged(limit, side, quantity) > limit else Averaged(limit, side, quantity) < limit)
       <==> quantity > TYPICAL_VOLUME
  {
    var r := TYPICAL_VOLUME / quantity;
    if quantity > TYPICAL_VOLUME {
      var c := (1.0 - r) * 0.001;
      assert 0.0 < r < 1.0 && c > 0.0;
      var worse := limit * (1.0 + c * (if side == Buy then 1.0 else -1.0));
      AverageGap(limit, worse, r);
      assert worse - limit == (if side == Buy then limit * c else -(limit * c));
      StrictSign(limit, c);
      StrictSign(limit * c, 1.0 - r);
    }
  }

  lemma StrictSign(a: real, b: real)
    requires a > 0.0 && b > 0.0
    ensures a * b > 0.0
  {
  }

  lemma FeeNotNegative(cfg: Config, price: real, quantity: Qty)
    requires SaneConfig(cfg) && price >= 0.0
    ensures FeeOf(cfg, Notional(price, quantity)) >= 0.0 && Round4(FeeOf(cfg, Notional(price, quantity))) >= 0.0
  {
  }

  lemma RestingFillHarmless(cfg: Config, id: nat, o: Order, quantity: Qty, price: real, marks: Symbol -> real)
    requires SaneConfig(cfg) && Quoted(marks) && NoBetter(o.side, price, marks(o.symbol))
    ensures Harmless(marks, Traded(RestingFill(cfg, id, o, quantity, price)))
  {
    FeeNotNegative(cfg, price, quantity);
    RoundPriceKeepsSide(price, marks(o.symbol));
  }

  lemma ImmediateFillHarmless(cfg: Config, id: nat, req: Request, o: Order, price: real, marks: Symbol -> real)
    requires SaneConfig(cfg) && Quoted(marks) && NoBetter(o.side, price, marks(o.symbol))
    ensures Harmless(marks, Traded(ImmediateFill(cfg, id, req, o, price)))
  {
    FeeNotNegative(cfg, price, o.quantity);
    AveragedNoBetter(price, o.side, o.quantity, marks(o.symbol));
    RoundPriceKeepsSide(Averaged(price, o.side, o.quantity), marks(o.symbol));
  }

  // ---------------------------------------------------------------- single steps

  lemma FillNowNoGain(cfg: Config, st: State, req: Request, o: Order, price: real, mid: real, marks: Symbol -> real)
    requires SaneConfig(cfg) && Quoted(marks) && NoBetter(o.side, price, marks(o.symbol))
    ensures Wealth(FillNow(cfg, st, req, o, price, mid).acct, marks) <= Wealth(st.acct, marks)
  {
    hide Wealth, Post, Enter, Harmless, RoundPrice, Averaged;
    var f := ImmediateFill(cfg, st.desk.next, req, o, price);
    ImmediateFillHarmless(cfg, st.desk.next, req, o, price, marks);
    NoGain(st.acct, Traded(f), marks);
  }

  lemma SubmitNoGain(cfg: Config, st: State, req: Request, mid: real, depth: bool, marks: Symbol -> real)
    requires SaneConfig(cfg) && Quoted(marks) && ProperRequest(cfg, req) && mid == marks(req.symbol)
    ensures Wealth(Submit(cfg, st, req, mid, depth).acct, marks) <= Wealth(st.acct, marks)
  {
    hide Wealth, FillNow, Enter, MarketPrice, Quoted, SellSizeOk, Registered, Unresolved;
    if Refuses(req).None? {
      var o := NewOrder(req);
      var price := MarketPrice(cfg, mid, o.side, o.quantity);
      QuotedAt(marks, req.symbol);
      MarketPriceBound(cfg, mid, o.side, o.quantity);
      if o.terms.Immediate? {
        MarketPriceNoBetter(cfg, mid, o.side, o.quantity);
        FillNowNoGain(cfg, st, req, o, price, mid, marks);
      } else if o.terms.AtLimit? && Marketable(o.side, price, o.terms.price) {
        FillNowNoGain(cfg, st, req, o, o.terms.price, mid, marks);
      }
    }
  }

  lemma QuotedAt(marks: Symbol -> real, s: Symbol)
    requires Quoted(marks)
    ensures marks(s) >= 0.0
  {
  }

  lemma ExecuteNoGain(cfg: Config, st: State, id: nat, t: Terms, price: real, marks: Symbol -> real)
    requires SaneConfig(cfg) && Quoted(marks) && id in st.desk.orders
    requires NoBetter(st.desk.orders[id].side, price, marks(st.desk.orders[id].symbol))
    ensures Wealth(Execute(cfg, st, id, t, price).acct, marks) <= Wealth(st.acct, marks)
  {
    hide Wealth, Post, Harmless, RoundPrice, Round4, FillResting, RejectResting;
    var o := st.desk.orders[id];
    RestingFillHarmless(cfg, id, o, o.quantity, price, marks);
    NoGain(st.acct, Traded(RestingFill(cfg, id, o, o.quantity, price)), marks);
  }

  lemma SliceNoGain(cfg: Config, st: State, id: nat, price: real, marks: Symbol -> real)
    requires SaneConfig(cfg) && Quoted(marks) && id in st.desk.orders
    requires st.desk.orders[id].terms.Iceberg? && st.desk.orders[id].terms.hidden > 0.0
    requires NoBetter(st.desk.orders[id].side, price, marks(st.desk.orders[id].symbol))
    ensures Wealth(Slice(cfg, st, id, price).acct, marks) <= Wealth(st.acct, marks)
  {
    hide Wealth, Post, Harmless, RoundPrice, Round4, FillResting, RejectSlice, Retune;
    var o := st.desk.orders[id];
    var quantity: Qty := Min(o.terms.visible, o.terms.hidden);
    RestingFillHarmless(cfg, id, o, quantity, price, marks);
    NoGain(st.acct, Traded(RestingFill(cfg, id, o, quantity, price)), marks);
  }

  lemma TickNoGain(cfg: Config, st: State, id: nat, prices: Symbol -> real, now: real)
    requires SaneConfig(cfg) && Quoted(prices) && ProperDesk(cfg, st.desk)
    ensures Wealth(Tick(cfg, st, id, prices, now).acct, prices) <= Wealth(st.acct, prices)
    ensures Tick(cfg, st, id, prices, now).desk.orders.Keys == st.desk.orders.Keys
  {
    hide Wealth, Quoted, Advance, Slipped;
    if IsPending(st.desk, id) {
      var o := st.desk.orders[id];
      var price := prices(o.symbol);
      QuotedAt(prices, o.symbol);
      TickKeys(cfg, st, id, prices, now);
      hide Execute, Slice;
      match o.terms
      case Immediate =>
      case AtLimit(limit, _) =>
        if Marketable(o.side, price, limit) {
          ExecuteNoGain(cfg, st, id, o.terms, limit, prices);
        }
      case StopLimit(stop, limit, triggered) =>
        if Marketable(o.side, price, limit) {
          ExecuteNoGain(cfg, st, id, o.terms.(triggered := triggered || StopReached(o.side, price, stop)), limit,
                        prices);
        }
      case Trailing(_, _, _, _, _, _) =>
        if price != 0.0 {
          SlippedNoBetter(cfg, o.side, price);
          ExecuteNoGain(cfg, st, id, Advance(o.terms, o.side, price), Slipped(cfg, o.side, price), prices);
        }
      case Iceberg(floor, _, hidden, _) =>
        if hidden > 0.0 {
          if floor.None? {
            SliceNoGain(cfg, st, id, price, prices);
          } else if Marketable(o.side, price, floor.value) {
            SliceNoGain(cfg, st, id, floor.value, prices);
          }
        }
    }
  }

  lemma FillKeys(d: Desk, id: nat, t: Terms, price: real, quantity: real, fee: real)
    requires id in d.orders
    ensures FillResting(d, id, t, price, quantity, fee).orders.Keys == d.orders.Keys
    ensures RejectResting(Retune(d, id, t), id).orders.Keys == d.orders.Keys
  {
  }

  /** Working the books stores no order and forgets none. */
  lemma TickKeys(cfg: Config, st: State, id: nat, prices: Symbol -> real, now: real)
    ensures Tick(cfg, st, id, prices, now).desk.orders.Keys == st.desk.orders.Keys
  {
    hide Execute, Slice, Advance, Slipped;
    if IsPending(st.desk, id) {
      forall t, price ensures Execute(cfg, st, id, t, price).desk.orders.Keys == st.desk.orders.Keys {
        ExecuteSameKeys(cfg, st, id, t, price);
      }
      if st.desk.orders[id].terms.Iceberg? && st.desk.orders[id].terms.hidden > 0.0 {
        forall price ensures Slice(cfg, st, id, price).desk.orders.Keys == st.desk.orders.Keys {
          SliceSameKeys(cfg, st, id, price);
        }
      }
    }
  }

  lemma ExecuteSameKeys(cfg: Config, st: State, id: nat, t: Terms, price: real)
    requires id in st.desk.orders
    ensures Execute(cfg, st, id, t, price).desk.orders.Keys == st.desk.orders.Keys
  {
    hide FillResting, RejectResting, Retune, Post, Round4, RoundPrice;
    var o := st.desk.orders[id];
    var f := RestingFill(cfg, id, o, o.quantity, price);
    FillKeys(st.desk, id, t, f.price, o.quantity, f.fee);
  }

  lemma SliceSameKeys(cfg: Config, st: State, id: nat, price: real)
    requires id in st.desk.orders && st.desk.orders[id].terms.Iceberg? && st.desk.orders[id].terms.hidden > 0.0
    ensures Slice(cfg, st, id, price).desk.orders.Keys == st.desk.orders.Keys
  {
    hide FillResting, Post, Round4, RoundPrice;
    var o := st.desk.orders[id];
    var quantity: Qty := Min(o.terms.visible, o.terms.hidden);
    FillKeys(st.desk, id, o.terms.(hidden := o.terms.hidden - quantity, slices := o.terms.slices + 1),
             o.filledPrice, o.quantity, o.fee);
  }

  lemma ProperAfter(cfg: Config, d: Desk, e: Desk)
    requires ProperDesk(cfg, d) && Persists(d, e)
    requires forall id :: IsPending(e, id) && id !in d.orders ==> ProperOrder(cfg, e.orders[id])
    ensures ProperDesk(cfg, e)
  {
  }

  // ---------------------------------------------------------------- passes

  lemma {:induction false} SweepNoGain(cfg: Config, initial: real, st: State, ids: seq<nat>, prices: Symbol -> real,
                                       now: real)
    requires SaneConfig(cfg) && Quoted(prices) && ProperDesk(cfg, st.desk) && Good(initial, st)
    ensures var r := Sweep(cfg, st, ids, prices, now);
            && Wealth(r.acct, prices) <= Wealth(st.acct, prices) && ProperDesk(cfg, r.desk)
            && Good(initial, r) && r.desk.orders.Keys == st.desk.orders.Keys
    decreases |ids|
  {
    hide Wealth, Quoted, ProperDesk, Reconciled, Sound, Matched, Persists, Tick;
    if ids != [] {
      var m := Tick(cfg, st, ids[0], prices, now);
      TickNoGain(cfg, st, ids[0], prices, now);
      TickKeeps(cfg, initial, st, ids[0], prices, now);
      ProperAfter(cfg, st.desk, m.desk);
      SweepNoGain(cfg, initial, m, ids[1..], prices, now);
    }
  }

  lemma CheckAdvancedNoGain(cfg: Config, initial: real, st: State, prices: Symbol -> real, now: real)
    requires SaneConfig(cfg) && Quoted(prices) && ProperDesk(cfg, st.desk) && Good(initial, st)
    ensures var r := CheckAdvanced(cfg, st, prices, now);
            Wealth(r.acct, prices) <= Wealth(st.acct, prices) && ProperDesk(cfg, r.desk)
  {
    hide Wealth, Quoted, ProperDesk, Good, Sweep;
    var a := Sweep(cfg, st, st.desk.books.limits, prices, now);
    var b := Sweep(cfg, a, a.desk.books.stops, prices, now);
    var c := Sweep(cfg, b, b.desk.books.trails, prices, now);
    SweepNoGain(cfg, initial, st, st.desk.books.limits, prices, now);
    SweepNoGain(cfg, initial, a, a.desk.books.stops, prices, now);
    SweepNoGain(cfg, initial, b, b.desk.books.trails, prices, now);
    SweepNoGain(cfg, initial, c, c.desk.books.icebergs, prices, now);
  }

  // ---------------------------------------------------------------- submissions and closes

  lemma EnterProper(cfg: Config, d: Desk, p: Order)
    requires ProperDesk(cfg, d) && Persists(d, Enter(d, p)) && (p.status == Pending ==> ProperOrder(cfg, p))
    ensures ProperDesk(cfg, Enter(d, p))
  {
  }

  lemma SubmitProper(cfg: Config, initial: real, st: State, req: Request, mid: real, depth: bool)
    requires SaneConfig(cfg) && ProperDesk(cfg, st.desk) && ProperRequest(cfg, req) && Good(initial, st)
    ensures ProperDesk(cfg, Submit(cfg, st, req, mid, depth).desk)
  {
    hide ProperDesk, Reconciled, Sound, Matched, Persists, Submit, Enter, Registered, SellSizeOk, ProperOrder;
    var r := Submit(cfg, st, req, mid, depth);
    SubmitKeeps(cfg, initial, st, req, mid, depth);
    if Refuses(req).Some? {
      BounceProper(cfg, st, req, mid, depth);
    } else {
      var p := SubmitEnters(cfg, st, req, mid, depth);
      RegisteredProper(cfg, req, mid);
      EnterProper(cfg, st.desk, p);
    }
  }

  lemma BounceProper(cfg: Config, st: State, req: Request, mid: real, depth: bool)
    requires ProperDesk(cfg, st.desk) && Refuses(req).Some?
    ensures ProperDesk(cfg, Submit(cfg, st, req, mid, depth).desk)
  {
  }

  lemma RegisteredProper(cfg: Config, req: Request, mid: real)
    requires SaneConfig(cfg) && ProperRequest(cfg, req) && Refuses(req).None?
    ensures var o := NewOrder(req); ProperOrder(cfg, o.(terms := Registered(o.terms, o.side, mid)))
  {
  }

  /** Closing a long position of this trigger's size leaves a positive price. */
  predicate ProperTrigger(cfg: Config, t: Trigger) { t.side == Buy ==> SellSizeOk(cfg, t.quantity) }

  lemma CloseTriggeredNoGain(cfg: Config, initial: real, st: State, t: Trigger, prices: Symbol -> real)
    requires SaneConfig(cfg) && Quoted(prices) && ProperTrigger(cfg, t)
    requires Good(initial, st) && ProperDesk(cfg, st.desk)
    ensures var r := CloseTriggered(cfg, st, t, prices(t.symbol));
            && Wealth(r.acct, prices) <= Wealth(st.acct, prices)
            && ProperDesk(cfg, r.desk) && Good(initial, r)
  {
    hide Wealth, Post, Submit, ProperDesk, Good, Quoted, SellSizeOk, Keeps;
    var closed := Submit(cfg, st, CloseRequest(t), prices(t.symbol), true);
    SubmitNoGain(cfg, st, CloseRequest(t), prices(t.symbol), true, prices);
    SubmitProper(cfg, initial, st, CloseRequest(t), prices(t.symbol), true);
    NoGain(closed.acct, Covered(-closed.acct.balance), prices);
    CloseTriggeredKeeps(cfg, initial, st, t, prices(t.symbol));
    KeepsGood(initial, st, CloseTriggered(cfg, st, t, prices(t.symbol)));
  }

  lemma {:induction false} CloseAllNoGain(cfg: Config, initial: real, st: State, ts: seq<Trigger>,
                                          prices: Symbol -> real)
    requires SaneConfig(cfg) && Quoted(prices) && (forall i :: 0 <= i < |ts| ==> ProperTrigger(cfg, ts[i]))
    requires Good(initial, st) && ProperDesk(cfg, st.desk)
    ensures var r := CloseAll(cfg, st, ts, prices);
            Wealth(r.acct, prices) <= Wealth(st.acct, prices) && ProperDesk(cfg, r.desk)
    decreases |ts|
  {
    hide Wealth, ProperDesk, Good, Quoted, CloseTriggered, ProperTrigger;
    if ts != [] {
      var m := CloseTriggered(cfg, st, ts[0], prices(ts[0].symbol));
      CloseTriggeredNoGain(cfg, initial, st, ts[0], prices);
      CloseAllNoGain(cfg, initial, m, ts[1..], prices);
    }
  }

  lemma {:induction false} CancelAllKeys(d: Desk, ids: seq<nat>, symbol: Option<Symbol>)
    ensures CancelAll(d, ids, symbol).orders.Keys == d.orders.Keys
    decreases |ids|
  {
    if ids != [] {
      var id := ids[0];
      var chosen := id in d.orders && (symbol.None? || d.orders[id].symbol == symbol.value);
      CancelAllKeys(if chosen then Cancel(d, id) else d, ids[1..], symbol);
    }
  }

  // ---------------------------------------------------------------- runs at fixed marks

  /** An event at these marks that the caller may submit in this state: anything but funding,
      with proper requests and closes. */
  ghost predicate AtMarks(cfg: Config, st: State, ev: Event, marks: Symbol -> real)
  {
    match ev
    case Submission(req, mid, _) => ProperRequest(cfg, req) && mid == marks(req.symbol)
    case AdvancedCheck(prices, _) => prices == marks
    case StopCheck(prices) =>
      prices == marks && forall t :: t in Triggers(cfg, st.acct.positions, prices) ==> ProperTrigger(cfg, t)
    case FundingCharge(_, _) => false
    case CancelOrder(_) => true
    case CancelOrders(_) => true
  }

  ghost predicate AllAtMarks(cfg: Config, st: State, evs: seq<Event>, marks: Symbol -> real)
    decreases |evs|
  {
    evs == [] || (AtMarks(cfg, st, evs[0], marks) && AllAtMarks(cfg, Step(cfg, st, evs[0]), evs[1..], marks))
  }

  lemma StepNoGain(cfg: Config, initial: real, st: State, ev: Event, marks: Symbol -> real)
    requires SaneConfig(cfg) && Quoted(marks) && AtMarks(cfg, st, ev, marks)
    requires Good(initial, st) && ProperDesk(cfg, st.desk)
    ensures var r := Step(cfg, st, ev);
            && Wealth(r.acct, marks) <= Wealth(st.acct, marks)
            && ProperDesk(cfg, r.desk) && Good(initial, r)
  {
    hide Wealth, ProperDesk, Reconciled, Sound, Matched, Persists, Quoted, Submit, CheckAdvanced, CloseAll, Triggers,
         CancelAll, CancelResting, ProperTrigger, ProperRequest;
    var r := Step(cfg, st, ev);
    StepKeeps(cfg, initial, st, ev);
    match ev
    case Submission(req, mid, depth) =>
      SubmitNoGain(cfg, st, req, mid, depth, marks);
      SubmitProper(cfg, initial, st, req, mid, depth);
    case AdvancedCheck(prices, now) => CheckAdvancedNoGain(cfg, initial, st, prices, now);
    case StopCheck(prices) => CloseAllNoGain(cfg, initial, st, Triggers(cfg, st.acct.positions, prices), prices);
    case CancelOrder(id) =>
      CancelKeys(st.desk, id);
      ProperAfter(cfg, st.desk, r.desk);
    case CancelOrders(symbol) =>
      CancelAllKeys(st.desk, Resting(st.desk.books), symbol);
      ProperAfter(cfg, st.desk, r.desk);
  }

  lemma CancelKeys(d: Desk, id: nat)
    ensures Cancel(d, id).orders.Keys == d.orders.Keys
  {
  }

  lemma {:induction false} RunNoGain(cfg: Config, initial: real, st: State, evs: seq<Event>, marks: Symbol -> real)
    requires SaneConfig(cfg) && Quoted(marks) && AllAtMarks(cfg, st, evs, marks)
    requires Good(initial, st) && ProperDesk(cfg, st.desk)
    ensures Wealth(Run(cfg, st, evs).acct, marks) <= Wealth(st.acct, marks)
    decreases |evs|
  {
    hide Wealth, ProperDesk, Good, Quoted, Step, AtMarks;
    if evs != [] {
      StepNoGain(cfg, initial, st, evs[0], marks);
      RunNoGain(cfg, initial, Step(cfg, st, evs[0]), evs[1..], marks);
    }
  }

  /** No sequence of submissions, checks, closes and cancels at fixed prices raises reported
      equity, apart from what the insurance fund pays in, when no remainder is dropped. */
  lemma NoEquityFromTrading(cfg: Config, initial: real, st: State, evs: seq<Event>, marks: Symbol -> real)
    requires SaneConfig(cfg) && Quoted(marks) && AllAtMarks(cfg, st, evs, marks)
    requires Good(initial, st) && ProperDesk(cfg, st.desk)
    ensures var r := Run(cfg, st, evs);
            r.acct.abandoned == st.acct.abandoned ==>
              Equity(r.acct, marks) <= Equity(st.acct, marks) + (st.acct.insurance - r.acct.insurance)
  {
    hide ProperDesk, Good, Quoted, Run, AllAtMarks, Total, Worth;
    var r := Run(cfg, st, evs);
    RunNoGain(cfg, initial, st, evs, marks);
    TotalOfConcat(st.acct.positions, st.acct.abandoned, Worth(marks));
    TotalOfConcat(r.acct.positions, r.acct.abandoned, Worth(marks));
  }
}
