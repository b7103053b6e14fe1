/** The simulated exchange as a state machine: submission, the tick that works the resting
    orders, forced closes, funding and cancels. */
module Engine {
  import opened Basics
  import opened Rounding
  import opened Accounts
  import opened Desk

  datatype Config = Config(
    feePct: real, slippageBps: real, leverage: int, partialRatio: real, maintenance: real)

  datatype State = State(acct: Account, desk: Desk)

  function Start(initial: real): State { State(Opened(initial), EMPTY) }

  // ---------------------------------------------------------------- prices, fees, margin

  const TYPICAL_VOLUME := 500.0
  const MAX_QUANTITY := 1000000000.0

  function Lever(cfg: Config): real { if cfg.leverage > 0 then cfg.leverage as real else 1.0 }

  function Notional(price: real, quantity: Qty): real { price * quantity }

  function FeeOf(cfg: Config, notional: real): real { notional * cfg.feePct / 100.0 }

  function Slipped(cfg: Config, side: Side, price: real): real
  {
    var slippage := price * cfg.slippageBps / 10000.0;
    if side == Buy then price + slippage else price - slippage
  }

  /** Market price with slippage, plus impact above a tenth of the typical volume. */
  function MarketPrice(cfg: Config, mid: real, side: Side, quantity: real): real
  {
    var ratio := quantity / TYPICAL_VOLUME;
    var impact := if ratio > 0.1 then mid * 0.001 * ratio else 0.0;
    if side == Buy then Slipped(cfg, side, mid) + impact else Slipped(cfg, side, mid) - impact
  }

  /** Average over the typical volume at the fill price and the rest at a worse one. */
  function Averaged(price: real, side: Side, quantity: Qty): real
  {
    if quantity <= TYPICAL_VOLUME * 0.5 || TYPICAL_VOLUME / quantity >= 1.0 then price
    else
      var ratio := TYPICAL_VOLUME / quantity;
      var worse := price * (1.0 + (1.0 - ratio) * 0.001 * (if side == Buy then 1.0 else -1.0));
      price * ratio + worse * (1.0 - ratio)
  }

  /** Market trades at or through a limit. */
  predicate Marketable(side: Side, price: real, limit: real)
  {
    if side == Buy then price <= limit else price >= limit
  }

  predicate MarginCovers(cfg: Config, balance: real, notional: real)
  {
    notional / Lever(cfg) + FeeOf(cfg, notional) <= balance
  }

  predicate SizeAllowed(cfg: Config, balance: real, notional: real)
  {
    notional <= balance * cfg.leverage as real * 0.5
  }

  // ---------------------------------------------------------------- submission

  datatype OrderType = MarketOrder | LimitOrder | StopLimitOrder | TrailingStopOrder | OcoOrder | IcebergOrder
  datatype TimeInForce = GTC | IOC | FOK | GTD | UnknownTif

  datatype Request = Request(
    symbol: Symbol, side: Side, quantity: real, orderType: OrderType, price: Option<real>,
    stopLoss: Option<real>, takeProfit: Option<real>, forceClose: bool,
    stopPrice: Option<real>, limitPrice: Option<real>,
    trailAmount: Option<real>, trailPercentage: bool, visible: Option<real>,
    group: Option<GroupId>, tif: TimeInForce, postOnly: bool, expireTs: Option<real>)

  datatype Refusal =
    | InvalidQuantity | QuantityTooLarge | InvalidParameters | InvalidTif
    | TifLimitOnly | ExpireRequiresGtd | GtdMissingExpiry

  /** The terms the request asks for, if its parameters allow any. */
  function TermsOf(req: Request): Option<Terms>
    requires req.quantity > 0.0
  {
    match req.orderType
    case StopLimitOrder =>
      if req.stopPrice.None? || req.limitPrice.None? then None
      else Some(StopLimit(req.stopPrice.value, req.limitPrice.value, false))
    case TrailingStopOrder =>
      if req.trailAmount.None? || req.trailAmount.value <= 0.0 then None
      else Some(Trailing(req.trailAmount.value, req.trailPercentage, 0.0, 0.0, 0.0, false))
    case IcebergOrder =>
      if req.visible.None? || req.visible.value <= 0.0 || req.visible.value >= req.quantity then None
      else Some(Iceberg(req.price, req.visible.value, req.quantity - req.visible.value, 0))
    case LimitOrder =>
      if req.price.None? then Some(Immediate)
      else Some(AtLimit(req.price.value, if req.tif == GTD then req.expireTs else None))
    case _ => Some(Immediate)
  }

  /** The first check the request fails, in the order they are made. */
  function Refuses(req: Request): Option<Refusal>
  {
    if req.quantity <= 0.0 then Some(InvalidQuantity)
    else if req.quantity > MAX_QUANTITY then Some(QuantityTooLarge)
    else if TermsOf(req).None? then Some(InvalidParameters)
    else if req.tif == UnknownTif then Some(InvalidTif)
    else if req.orderType != LimitOrder && (req.tif != GTC || req.postOnly || req.expireTs.Some?) then
      Some(TifLimitOnly)
    else if req.expireTs.Some? && req.tif != GTD then Some(ExpireRequiresGtd)
    else if req.tif == GTD && req.expireTs.None? then Some(GtdMissingExpiry)
    else None
  }

  function NewOrder(req: Request): Order
    requires Refuses(req).None?
  {
    Order(req.symbol, req.side, req.quantity, TermsOf(req).value, Pending, 0.0, 0.0, 0.0, req.group, false)
  }

  /** A registered trailing stop remembers the mid price on its own side. */
  function Registered(t: Terms, side: Side, mid: real): Terms
  {
    if t.Trailing? then
      t.(highest := if side == Sell then mid else 0.0, lowest := if side == Buy then mid else 0.0)
    else t
  }

  /** `mid` is the market price (zero when there is none); `depthCovers` is the answer of
      the order book to the fill-or-kill depth test. */
  function Submit(cfg: Config, st: State, req: Request, mid: real, depthCovers: bool): State
  {
    if Refuses(req).Some? then st.(desk := Bounce(st.desk))
    else
      var o := NewOrder(req);
      if !Unresolved(st.desk, o.group) then Admit(st, o, Cancelled)
      else if mid == 0.0 then Admit(st, o, Rejected)
      else
        var fillPrice := MarketPrice(cfg, mid, o.side, o.quantity);
        match o.terms
        case Immediate => FillNow(cfg, st, req, o, fillPrice, mid)
        case AtLimit(limit, _) =>
          if Marketable(o.side, fillPrice, limit) then
            if req.postOnly then Admit(st, o, Rejected)
            else if req.tif == FOK && !depthCovers then Admit(st, o, Cancelled)
            else FillNow(cfg, st, req, o, limit, mid)
          else if req.tif == IOC || req.tif == FOK then Admit(st, o, Cancelled)
          else Admit(st, o, Pending)
        case _ => Admit(st, o.(terms := Registered(o.terms, o.side, mid)), Pending)
  }

  function Admit(st: State, o: Order, s: Status): State
  {
    st.(desk := Enter(st.desk, o.(status := s)))
  }

  function FillNow(cfg: Config, st: State, req: Request, o: Order, price: real, mid: real): State
  {
    var notional := Notional(price, o.quantity);
    if !req.forceClose && !MarginCovers(cfg, st.acct.balance, notional) then Admit(st, o, Rejected)
    else if !req.forceClose && !SizeAllowed(cfg, st.acct.balance, Notional(mid, o.quantity)) then Admit(st, o, Rejected)
    else
      var f := ImmediateFill(cfg, st.desk.next, req, o, price);
      State(Post(st.acct, Traded(f)),
            Enter(st.desk, o.(status := Filled, filledPrice := f.price, filledQuantity := o.quantity,
                              fee := Round4(f.fee))))
  }

  function ImmediateFill(cfg: Config, id: nat, req: Request, o: Order, price: real): Fill
  {
    var notional := Notional(price, o.quantity);
    Fill(id, o.symbol, o.side, o.quantity, RoundPrice(Averaged(price, o.side, o.quantity)),
         FeeOf(cfg, notional), if req.forceClose then 0.0 else notional / Lever(cfg),
         req.stopLoss, req.takeProfit)
  }

  // ---------------------------------------------------------------- resting orders

  function RestingFill(cfg: Config, id: nat, o: Order, quantity: Qty, price: real): Fill
  {
    var notional := Notional(price, quantity);
    Fill(id, o.symbol, o.side, quantity, RoundPrice(price), Round4(FeeOf(cfg, notional)),
         notional / Lever(cfg), None, None)
  }

  /** Fill a resting order at `price`, or reject it when the margin check fails. */
  function Execute(cfg: Config, st: State, id: nat, t: Terms, price: real): State
    requires id in st.desk.orders
  {
    var o := st.desk.orders[id];
    var notional := Notional(price, o.quantity);
    if !MarginCovers(cfg, st.acct.balance, notional) || !SizeAllowed(cfg, st.acct.balance, notional) then
      st.(desk := RejectResting(Retune(st.desk, id, t), id))
    else
      var f := RestingFill(cfg, id, o, o.quantity, price);
      State(Post(st.acct, Traded(f)), FillResting(st.desk, id, t, f.price, o.quantity, f.fee))
  }

  predicate StopReached(side: Side, price: real, stop: real)
  {
    if side == Buy then price >= stop else price <= stop
  }

  function TrailFrom(side: Side, amount: real, percentage: bool, price: real): real
  {
    if side == Buy then
      if percentage then price * (1.0 + amount / 100.0) else price + amount
    else
      if percentage then price * (1.0 - amount / 100.0) else price - amount
  }

  /** The level of a trailing stop after it has seen one more price. */
  function Advance(t: Terms, side: Side, price: real): Terms
    requires t.Trailing? && price != 0.0
  {
    if !t.activated then
      var factor := if t.percentage then t.amount / 100.0 else t.amount / price;
      t.(activated := true, highest := price, lowest := price,
         level := price * (if side == Buy then 1.0 + factor else 1.0 - factor))
    else if side == Buy && price < t.lowest then
      t.(lowest := price, level := TrailFrom(side, t.amount, t.percentage, price))
    else if side == Sell && price > t.highest then
      t.(highest := price, level := TrailFrom(side, t.amount, t.percentage, price))
    else t
  }

  /** One slice: the smaller of the visible size and what is still hidden. */
  function Slice(cfg: Config, st: State, id: nat, price: real): State
    requires id in st.desk.orders && st.desk.orders[id].terms.Iceberg? && st.desk.orders[id].terms.hidden > 0.0
  {
    var o := st.desk.orders[id];
    var quantity: Qty := Min(o.terms.visible, o.terms.hidden);
    var notional := Notional(price, quantity);
    if !MarginCovers(cfg, st.acct.balance, notional) || !SizeAllowed(cfg, st.acct.balance, notional) then
      st.(desk := RejectSlice(st.desk))
    else
      var t := o.terms.(hidden := o.terms.hidden - quantity, slices := o.terms.slices + 1);
      State(Post(st.acct, Traded(RestingFill(cfg, id, o, quantity, price))),
            if t.hidden <= 0.0 then FillResting(st.desk, id, t, o.filledPrice, o.quantity, o.fee)
            else Retune(st.desk, id, t))
  }

  /** What one check does with one entry of a book. */
  function Tick(cfg: Config, st: State, id: nat, prices: Symbol -> real, now: real): State
  {
    if !IsPending(st.desk, id) then st
    else
      var o := st.desk.orders[id];
      var price := prices(o.symbol);
      match o.terms
      case Immediate => st
      case AtLimit(limit, expireTs) =>
        if expireTs.Some? && now >= expireTs.value then st.(desk := CancelResting(st.desk, id))
        else if price == 0.0 then st
        else if Marketable(o.side, price, limit) then Execute(cfg, st, id, o.terms, limit)
        else st
      case StopLimit(stop, limit, triggered) =>
        if price == 0.0 then st
        else
          var t := o.terms.(triggered := triggered || StopReached(o.side, price, stop));
          if t.triggered && Marketable(o.side, price, limit) then Execute(cfg, st, id, t, limit)
          else st.(desk := Retune(st.desk, id, t))
      case Trailing(_, _, _, _, _, _) =>
        if price == 0.0 then st
        else
          var t := Advance(o.terms, o.side, price);
          if StopReached(o.side, price, t.level) then Execute(cfg, st, id, t, Slipped(cfg, o.side, price))
          else st.(desk := Retune(st.desk, id, t))
      case Iceberg(floor, _, hidden, _) =>
        if price == 0.0 || hidden <= 0.0 then st
        else if floor.None? then Slice(cfg, st, id, price)
        else if Marketable(o.side, price, floor.value) then Slice(cfg, st, id, floor.value)
        else st
  }

  /** One pass over the entries a book had when the pass began. */
  function Sweep(cfg: Config, st: State, ids: seq<nat>, prices: Symbol -> real, now: real): State
    decreases |ids|
  {
    if ids == [] then st
    else Sweep(cfg, Tick(cfg, st, ids[0], prices, now), ids[1..], prices, now)
  }

  function CheckAdvanced(cfg: Config, st: State, prices: Symbol -> real, now: real): State
  {
    var a := Sweep(cfg, st, st.desk.books.limits, prices, now);
    var b := Sweep(cfg, a, a.desk.books.stops, prices, now);
    var c := Sweep(cfg, b, b.desk.books.trails, prices, now);
    Sweep(cfg, c, c.desk.books.icebergs, prices, now)
  }

  // ---------------------------------------------------------------- forced closes

  datatype Reason = Liquidation | PartialLiquidation | StopLoss | TakeProfit
  datatype Trigger = Trigger(symbol: Symbol, side: Side, reason: Reason, quantity: real)

  /** Entry less (short: plus) a share of the leveraged margin, with the maintenance margin
      on the safe side; on a grid of cents whatever the price. */
  function Level(side: Side, entry: real, share: real, maintenance: real): real
  {
    if side == Buy then Round2(entry * (1.0 - share + maintenance))
    else Round2(entry * (1.0 + share - maintenance))
  }

  function LiquidationPrice(cfg: Config, side: Side, entry: real): real
  {
    Level(side, entry, 1.0 / Lever(cfg), cfg.maintenance)
  }

  function PartialShare(cfg: Config): real { 1.0 / Lever(cfg) * cfg.partialRatio }

  function PartialPrice(cfg: Config, side: Side, entry: real): real
  {
    Level(side, entry, PartialShare(cfg), cfg.maintenance)
  }

  /** The market has moved against the position up to `level`. */
  predicate Breached(side: Side, price: real, level: real)
  {
    if side == Buy then price <= level else price >= level
  }

  function TriggerOf(cfg: Config, p: Position, price: real): Option<Trigger>
  {
    if Breached(p.side, price, LiquidationPrice(cfg, p.side, p.entry)) then
      Some(Trigger(p.symbol, p.side, Liquidation, p.quantity))
    else if Breached(p.side, price, PartialPrice(cfg, p.side, p.entry)) then
      Some(Trigger(p.symbol, p.side, PartialLiquidation, p.quantity * cfg.partialRatio))
    else if p.stopLoss > 0.0 && Breached(p.side, price, p.stopLoss) then
      Some(Trigger(p.symbol, p.side, StopLoss, p.quantity))
    else if p.takeProfit > 0.0 && (if p.side == Buy then price >= p.takeProfit else price <= p.takeProfit) then
      Some(Trigger(p.symbol, p.side, TakeProfit, p.quantity))
    else None
  }

  function Triggers(cfg: Config, ps: seq<Position>, prices: Symbol -> real): seq<Trigger>
  {
    if ps == [] then []
    else
      var t := TriggerOf(cfg, ps[0], prices(ps[0].symbol));
      (if t.Some? then [t.value] else []) + Triggers(cfg, ps[1..], prices)
  }

  function Opposite(side: Side): Side { if side == Buy then Sell else Buy }

  function CloseRequest(t: Trigger): Request
  {
    Request(t.symbol, Opposite(t.side), t.quantity, MarketOrder, None, None, None, true,
            None, None, None, true, None, None, GTC, false, None)
  }

  function CloseTriggered(cfg: Config, st: State, t: Trigger, price: real): State
  {
    var closed := Submit(cfg, st, CloseRequest(t), price, true);
    if t.reason == Liquidation then closed.(acct := Cover(closed.acct)) else closed
  }

  function CloseAll(cfg: Config, st: State, ts: seq<Trigger>, prices: Symbol -> real): State
    decreases |ts|
  {
    if ts == [] then st
    else CloseAll(cfg, CloseTriggered(cfg, st, ts[0], prices(ts[0].symbol)), ts[1..], prices)
  }

  function CheckStops(cfg: Config, st: State, prices: Symbol -> real): State
  {
    CloseAll(cfg, st, Triggers(cfg, st.acct.positions, prices), prices)
  }

  // ---------------------------------------------------------------- cancels

  function Cancel(d: Desk, id: nat): Desk
  {
    if IsPending(d, id) then CancelResting(d, id) else d
  }

  function CancelAll(d: Desk, ids: seq<nat>, symbol: Option<Symbol>): Desk
    decreases |ids|
  {
    if ids == [] then d
    else
      var id := ids[0];
      var chosen := id in d.orders && (symbol.None? || d.orders[id].symbol == symbol.value);
      CancelAll(if chosen then Cancel(d, id) else d, ids[1..], symbol)
  }

  // ---------------------------------------------------------------- runs

  datatype Event =
    | Submission(req: Request, mid: real, depthCovers: bool)
    | AdvancedCheck(prices: Symbol -> real, now: real)
    | StopCheck(prices: Symbol -> real)
    | FundingCharge(prices: Symbol -> real, rate: real)
    | CancelOrder(id: nat)
    | CancelOrders(symbol: Option<Symbol>)

  function Step(cfg: Config, st: State, ev: Event): State
  {
    match ev
    case Submission(req, mid, depth) => Submit(cfg, st, req, mid, depth)
    case AdvancedCheck(prices, now) => CheckAdvanced(cfg, st, prices, now)
    case StopCheck(prices) => CheckStops(cfg, st, prices)
    case FundingCharge(prices, rate) => st.(acct := ChargeFunding(st.acct, st.acct.positions, prices, rate))
    case CancelOrder(id) => st.(desk := Cancel(st.desk, id))
    case CancelOrders(symbol) => st.(desk := CancelAll(st.desk, Resting(st.desk.books), symbol))
  }

  function Run(cfg: Config, st: State, evs: seq<Event>): State
    decreases |evs|
  {
    if evs == [] then st else Run(cfg, Step(cfg, st, evs[0]), evs[1..])
  }
}
