/** The backtester: a replay loop over candles in which a strategy, any function of the window it
    is shown, decides, and the result keeps trades, equity curve and drawdown. */
module Backtesting {
  import opened Basics

  datatype Candle = Candle(high: real, low: real, close: real, timestamp: int)

  datatype Direction = Long | Short | Neutral

  datatype Signal = Signal(direction: Direction, stopLoss: real, takeProfit: real)

  predicate Actionable(s: Signal) { !s.direction.Neutral? }

  type Strategy = seq<Candle> -> Signal

  datatype Reason = StopLoss | TakeProfit | SignalExit | End

  datatype Position = Position(side: Direction, entry: real, quantity: real, stopLoss: real, takeProfit: real,
                               entryTime: int, fee: real)

  datatype Trade = Trade(position: Position, exit: real, exitTime: int, pnl: real, reason: Reason, fees: real)

  datatype Settings = Settings(initial: real, feePct: real, slippageBps: real, leverage: real,
                               maxPositionPct: real, riskPct: real)

  /** The run so far: what `run` keeps in locals, and the result object. */
  datatype Progress = Progress(position: Option<Position>, balance: real, trades: seq<Trade>, curve: seq<real>,
                               peak: real, maxDrawdown: real, signals: nat, valid: nat)

  datatype Result = Result(finalBalance: real, trades: seq<Trade>, curve: seq<real>, maxDrawdown: real)

  function Abs(x: real): real { if x < 0.0 then -x else x }

  function Max(x: real, y: real): real { if y > x then y else x }

  // ---------------------------------------------------------------- opening and closing

  function EntryPrice(cfg: Settings, direction: Direction, price: real): real
  {
    if direction.Long? then price * (1.0 + cfg.slippageBps / 10000.0) else price * (1.0 - cfg.slippageBps / 10000.0)
  }

  /** The smaller of the size that risks the configured share of the balance at the stop and the
      size the position limit allows. */
  function SizeOf(cfg: Settings, fill: real, stopLoss: real, balance: real): real
    requires fill != stopLoss
  {
    var maxNotional := balance * cfg.leverage * cfg.maxPositionPct / 100.0;
    Min(balance * cfg.riskPct / 100.0 / Abs(fill - stopLoss), if fill > 0.0 then maxNotional / fill else 0.0)
  }

  function Opened(cfg: Settings, s: Signal, price: real, balance: real, at: int): Option<Position>
  {
    var fill := EntryPrice(cfg, s.direction, price);
    if fill == s.stopLoss then None
    else
      var quantity := SizeOf(cfg, fill, s.stopLoss, balance);
      if quantity <= 0.0 then None
      else Some(Position(s.direction, fill, quantity, s.stopLoss, s.takeProfit, at,
                         fill * quantity * cfg.feePct / 100.0))
  }

  /** An opened position risks no more than the configured share of the balance at its stop, and
      its notional stays within the leveraged limit. */
  lemma OpenedWithinLimits(cfg: Settings, s: Signal, price: real, balance: real, at: int)
    requires Opened(cfg, s, price, balance, at).Some?
    ensures var p := Opened(cfg, s, price, balance, at).value;
            p.quantity > 0.0 && p.entry > 0.0 &&
            p.quantity * Abs(p.entry - p.stopLoss) <= balance * cfg.riskPct / 100.0 &&
            p.quantity * p.entry <= balance * cfg.leverage * cfg.maxPositionPct / 100.0
  {
  }

  function ExitPrice(cfg: Settings, side: Direction, price: real): real
  {
    if side.Long? then price * (1.0 - cfg.slippageBps / 10000.0) else price * (1.0 + cfg.slippageBps / 10000.0)
  }

  function Closed(cfg: Settings, p: Position, price: real, reason: Reason, at: int): Trade
  {
    var exit := ExitPrice(cfg, p.side, price);
    var gross := if p.side.Long? then (exit - p.entry) * p.quantity else (p.entry - exit) * p.quantity;
    var fees := p.fee + exit * p.quantity * cfg.feePct / 100.0;
    Trade(p, exit, at, gross - fees, reason, fees)
  }

  /** The stop is looked at before the target; both only when positive. */
  function ExitOf(p: Position, c: Candle): Option<(Reason, real)>
  {
    if p.side.Long? then
      if p.stopLoss > 0.0 && c.low <= p.stopLoss then Some((StopLoss, p.stopLoss))
      else if p.takeProfit > 0.0 && c.high >= p.takeProfit then Some((TakeProfit, p.takeProfit)) else None
    else
      if p.stopLoss > 0.0 && c.high >= p.stopLoss then Some((StopLoss, p.stopLoss))
      else if p.takeProfit > 0.0 && c.low <= p.takeProfit then Some((TakeProfit, p.takeProfit)) else None
  }

  // ------------------------------------------------------------------------ one bar

  function Exited(cfg: Settings, r: Progress, p: Position, price: real, reason: Reason, at: int): Progress
  {
    var t := Closed(cfg, p, price, reason, at);
    r.(position := None, balance := r.balance + t.pnl, trades := r.trades + [t])
  }

  predicate Reverses(side: Direction, d: Direction) { (side.Long? && d.Short?) || (side.Short? && d.Long?) }

  function Decided(cfg: Settings, strategy: Strategy, r: Progress, window: seq<Candle>, c: Candle): Progress
  {
    if r.position.Some? && ExitOf(r.position.value, c).Some? then
      var (reason, price) := ExitOf(r.position.value, c).value;
      Exited(cfg, r, r.position.value, price, reason, c.timestamp)
    else
      var s := strategy(window);
      var r1 := r.(signals := r.signals + 1, valid := if Actionable(s) then r.valid + 1 else r.valid);
      if !Actionable(s) then r1
      else if r.position.None? then r1.(position := Opened(cfg, s, c.close, r.balance, c.timestamp))
      else if Reverses(r.position.value.side, s.direction) then
        var r2 := Exited(cfg, r1, r.position.value, c.close, SignalExit, c.timestamp);
        r2.(position := Opened(cfg, s, c.close, r2.balance, c.timestamp))
      else r1
  }

  function Equity(position: Option<Position>, balance: real, price: real): real
  {
    match position
    case None => balance
    case Some(p) =>
      balance + (if p.side.Long? then (price - p.entry) * p.quantity else (p.entry - price) * p.quantity)
  }

  function Fall(peak: real, equity: real): real { if peak > 0.0 then (peak - equity) / peak * 100.0 else 0.0 }

  function Tracked(r: Progress, price: real): Progress
  {
    var equity := Equity(r.position, r.balance, price);
    var peak := Max(r.peak, equity);
    r.(curve := r.curve + [equity], peak := peak, maxDrawdown := Max(r.maxDrawdown, Fall(peak, equity)))
  }

  function Bar(cfg: Settings, strategy: Strategy, r: Progress, window: seq<Candle>, c: Candle): Progress
  {
    Tracked(Decided(cfg, strategy, r, window, c), c.close)
  }

  // ----------------------------------------------------------------------- whole runs

  function MaxWindow(warmup: nat): nat { if 2 * warmup > 200 then 2 * warmup else 200 }

  /** What the strategy sees at bar `i`: closed bars only. */
  function Window(candles: seq<Candle>, warmup: nat, i: nat): seq<Candle>
    requires i <= |candles|
  {
    candles[if i > MaxWindow(warmup) then i - MaxWindow(warmup) else 0..i]
  }

  function Start(cfg: Settings): Progress
  {
    Progress(None, cfg.initial, [], [cfg.initial], cfg.initial, 0.0, 0, 0)
  }

  /** The run before bar `n`. */
  function Before(cfg: Settings, strategy: Strategy, candles: seq<Candle>, warmup: nat, n: nat): Progress
    requires n <= |candles|
  {
    if n <= warmup then Start(cfg)
    else Bar(cfg, strategy, Before(cfg, strategy, candles, warmup, n - 1), Window(candles, warmup, n - 1),
             candles[n - 1])
  }

  function Finished(cfg: Settings, r: Progress, candles: seq<Candle>): Result
    requires r.position.Some? ==> candles != []
  {
    if r.position.None? then Result(r.balance, r.trades, r.curve, r.maxDrawdown)
    else
      var last := candles[|candles| - 1];
      var e := Exited(cfg, r, r.position.value, last.close, End, last.timestamp);
      Result(e.balance, e.trades, e.curve, e.maxDrawdown)
  }

  function Run(cfg: Settings, strategy: Strategy, candles: seq<Candle>, warmup: nat): Result
  {
    Finished(cfg, Before(cfg, strategy, candles, warmup, |candles|), candles)
  }

  // ----------------------------------------------------------------------- causality

  /** What happened before bar `n` is a function of the bars before it. */
  lemma {:induction false} PastDecides(cfg: Settings, strategy: Strategy, a: seq<Candle>, b: seq<Candle>, warmup: nat,
                                       n: nat)
    requires n <= |a| && n <= |b| && a[..n] == b[..n]
    ensures Before(cfg, strategy, a, warmup, n) == Before(cfg, strategy, b, warmup, n)
  {
    hide Bar;
    if n > warmup {
      assert a[..n - 1] == a[..n][..n - 1] == b[..n][..n - 1] == b[..n - 1];
      PastDecides(cfg, strategy, a, b, warmup, n - 1);
      assert a[n - 1] == a[..n][n - 1] == b[..n][n - 1] == b[n - 1];
      WindowFromPast(a, b, warmup, n - 1);
    }
  }

  /** The strategy sees the last bars before `i`: twice the warm-up of them, 200 at least, or all. */
  lemma WindowIsLast(candles: seq<Candle>, warmup: nat, i: nat)
    requires i <= |candles|
    ensures var (w, most) := (Window(candles, warmup, i), if warmup > 100 then 2 * warmup else 200);
            |w| == (if i < most then i else most) && w == candles[i - |w|..i]
  {
  }

  lemma WindowFromPast(a: seq<Candle>, b: seq<Candle>, warmup: nat, n: nat)
    requires n <= |a| && n <= |b| && a[..n] == b[..n]
    ensures Window(a, warmup, n) == Window(b, warmup, n)
  {
  }

  lemma {:induction false} GrowsWithBars(cfg: Settings, strategy: Strategy, candles: seq<Candle>, warmup: nat, m: nat,
                                         n: nat)
    requires m <= n <= |candles|
    ensures var x, y := Before(cfg, strategy, candles, warmup, m), Before(cfg, strategy, candles, warmup, n);
            x.curve <= y.curve && x.trades <= y.trades
    decreases n
  {
    if n > m && n > warmup { GrowsWithBars(cfg, strategy, candles, warmup, m, n - 1); }
  }

  /** Only the end of a run closes with reason END. */
  lemma {:induction false} NoEarlyEnd(cfg: Settings, strategy: Strategy, candles: seq<Candle>, warmup: nat, n: nat)
    requires n <= |candles|
    ensures forall t :: t in Before(cfg, strategy, candles, warmup, n).trades ==> !t.reason.End?
  {
    if n > warmup { NoEarlyEnd(cfg, strategy, candles, warmup, n - 1); }
  }

  /** The trades of a run without its closing at the end. */
  function BeforeEnd(trades: seq<Trade>): seq<Trade>
  {
    if trades != [] && trades[|trades| - 1].reason.End? then trades[..|trades| - 1] else trades
  }

  /** A run on the first `m` candles has a prefix of the whole run's equity curve and, apart from
      its END close, of the whole run's trades: nothing looks ahead. */
  lemma RunIsCausal(cfg: Settings, strategy: Strategy, candles: seq<Candle>, warmup: nat, m: nat)
    requires m <= |candles|
    ensures var part, whole := Run(cfg, strategy, candles[..m], warmup), Run(cfg, strategy, candles, warmup);
            part.curve <= whole.curve && BeforeEnd(part.trades) <= whole.trades &&
            BeforeEnd(part.trades) == Before(cfg, strategy, candles, warmup, m).trades
  {
    var r := Before(cfg, strategy, candles, warmup, m);
    PastDecides(cfg, strategy, candles[..m], candles, warmup, m);
    GrowsWithBars(cfg, strategy, candles, warmup, m, |candles|);
    NoEarlyEnd(cfg, strategy, candles, warmup, m);
    if r.trades != [] { assert r.trades[|r.trades| - 1] in r.trades; }
  }

  /** Whether bar `i` opens a position. */
  predicate OpensAt(cfg: Settings, strategy: Strategy, candles: seq<Candle>, warmup: nat, i: nat)
    requires warmup <= i < |candles|
  {
    var x, y := Before(cfg, strategy, candles, warmup, i), Before(cfg, strategy, candles, warmup, i + 1);
    y.position.Some? && (x.position.None? || |y.trades| > |x.trades|)
  }

  /** A position opened at bar `i` has its direction, stop and target from the bars before `i`:
      two histories that agree so far may differ in the bar itself, in price and in whether they
      open, but not in these. */
  lemma OpeningFromPast(cfg: Settings, strategy: Strategy, a: seq<Candle>, b: seq<Candle>, warmup: nat, i: nat)
    requires warmup <= i < |a| && i < |b| && a[..i] == b[..i]
    requires OpensAt(cfg, strategy, a, warmup, i) && OpensAt(cfg, strategy, b, warmup, i)
    ensures var p := Before(cfg, strategy, a, warmup, i + 1).position.value;
            var q := Before(cfg, strategy, b, warmup, i + 1).position.value;
            p.side == q.side && p.stopLoss == q.stopLoss && p.takeProfit == q.takeProfit
  {
  }

  // ------------------------------------------------------------------- bookkeeping

  function TotalPnl(trades: seq<Trade>): real
    decreases |trades|
  {
    if trades == [] then 0.0 else TotalPnl(trades[..|trades| - 1]) + trades[|trades| - 1].pnl
  }

  lemma TotalPnlAdded(trades: seq<Trade>, t: Trade)
    ensures TotalPnl(trades + [t]) == TotalPnl(trades) + t.pnl
  {
  }

  /** The balance is the initial one plus what the trades made. */
  lemma {:induction false} BalanceIsTrades(cfg: Settings, strategy: Strategy, candles: seq<Candle>, warmup: nat, n: nat)
    requires n <= |candles|
    ensures var r := Before(cfg, strategy, candles, warmup, n); r.balance == cfg.initial + TotalPnl(r.trades)
  {
    if n > warmup {
      BalanceIsTrades(cfg, strategy, candles, warmup, n - 1);
      DecidedBalances(cfg, strategy, Before(cfg, strategy, candles, warmup, n - 1), Window(candles, warmup, n - 1),
                      candles[n - 1]);
    }
  }

  lemma DecidedBalances(cfg: Settings, strategy: Strategy, r: Progress, window: seq<Candle>, c: Candle)
    ensures var d := Decided(cfg, strategy, r, window, c);
            d.balance - r.balance == TotalPnl(d.trades) - TotalPnl(r.trades)
  {
  }

  lemma FinalBalance(cfg: Settings, strategy: Strategy, candles: seq<Candle>, warmup: nat)
    ensures var e := Run(cfg, strategy, candles, warmup); e.finalBalance == cfg.initial + TotalPnl(e.trades)
  {
    var r := Before(cfg, strategy, candles, warmup, |candles|);
    BalanceIsTrades(cfg, strategy, candles, warmup, |candles|);
    if r.position.Some? {
      var last := candles[|candles| - 1];
      TotalPnlAdded(r.trades, Closed(cfg, r.position.value, last.close, End, last.timestamp));
    }
  }

  /** Trades closed at their stop or target. */
  function LevelExits(trades: seq<Trade>): nat
    decreases |trades|
  {
    if trades == [] then 0
    else
      var t := trades[|trades| - 1];
      LevelExits(trades[..|trades| - 1]) + (if t.reason.StopLoss? || t.reason.TakeProfit? then 1 else 0)
  }

  lemma LevelExitsAdded(trades: seq<Trade>, t: Trade)
    ensures LevelExits(trades + [t]) ==
            LevelExits(trades) + (if t.reason.StopLoss? || t.reason.TakeProfit? then 1 else 0)
  {
  }

  /** The strategy is asked at every bar but those that close a position at its stop or target. */
  lemma {:induction false} SignalsCounted(cfg: Settings, strategy: Strategy, candles: seq<Candle>, warmup: nat, n: nat)
    requires warmup <= n <= |candles|
    ensures var r := Before(cfg, strategy, candles, warmup, n);
            r.signals + LevelExits(r.trades) == n - warmup && r.valid <= r.signals
  {
    hide Decided, LevelExits;
    if n > warmup {
      SignalsCounted(cfg, strategy, candles, warmup, n - 1);
      DecidedCounts(cfg, strategy, Before(cfg, strategy, candles, warmup, n - 1), Window(candles, warmup, n - 1),
                    candles[n - 1]);
    } else {
      NoExits();
    }
  }

  lemma DecidedCounts(cfg: Settings, strategy: Strategy, r: Progress, window: seq<Candle>, c: Candle)
    ensures var d := Decided(cfg, strategy, r, window, c);
            && d.signals + LevelExits(d.trades) == r.signals + LevelExits(r.trades) + 1
            && d.valid - r.valid <= d.signals - r.signals
  {
    hide Opened, Closed, LevelExits;
    if r.position.Some? {
      var p, exit := r.position.value, ExitOf(r.position.value, c);
      if exit.Some? {
        ClosedFor(cfg, p, exit.value.1, exit.value.0, c.timestamp);
        LevelExitsAdded(r.trades, Closed(cfg, p, exit.value.1, exit.value.0, c.timestamp));
      }
      ClosedFor(cfg, p, c.close, SignalExit, c.timestamp);
      LevelExitsAdded(r.trades, Closed(cfg, p, c.close, SignalExit, c.timestamp));
    }
  }

  lemma ClosedFor(cfg: Settings, p: Position, price: real, reason: Reason, at: int)
    ensures Closed(cfg, p, price, reason, at).reason == reason
  {
  }

  lemma NoExits()
    ensures LevelExits([]) == 0
  {
  }

  // ------------------------------------------------------------------- what a close books

  /** The cost of trading both ends: a fee on the entry's and the exit's value. */
  function Fees(cfg: Settings, p: Position, exit: real): real { (p.entry + exit) * p.quantity * cfg.feePct / 100.0 }

  /** The position has been charged for its entry. */
  predicate PaidEntry(cfg: Settings, p: Position) { p.fee == p.entry * p.quantity * cfg.feePct / 100.0 }

  /** A price after slippage against a seller (down) or a buyer (up). */
  function SlippedDown(cfg: Settings, price: real): real { price - price * cfg.slippageBps / 10000.0 }
  function SlippedUp(cfg: Settings, price: real): real { price + price * cfg.slippageBps / 10000.0 }

  /** The trade's profit is the move from entry to exit in the position's direction, on its
      quantity, less the fees of both ends. */
  predicate Exact(cfg: Settings, t: Trade)
  {
    var p := t.position;
    && PaidEntry(cfg, p) && t.fees == Fees(cfg, p, t.exit)
    && t.pnl + t.fees == (t.exit - p.entry) * (if p.side.Long? then p.quantity else -p.quantity)
  }

  lemma OpenedPays(cfg: Settings, s: Signal, price: real, balance: real, at: int)
    ensures var o := Opened(cfg, s, price, balance, at); o.Some? ==> PaidEntry(cfg, o.value)
  {
    hide SizeOf, EntryPrice;
  }

  lemma ClosedExact(cfg: Settings, p: Position, price: real, reason: Reason, at: int)
    requires PaidEntry(cfg, p)
    ensures var t := Closed(cfg, p, price, reason, at);
            Exact(cfg, t) && t.exit == if p.side.Long? then SlippedDown(cfg, price) else SlippedUp(cfg, price)
  {
    var exit := ExitPrice(cfg, p.side, price);
    assert exit == if p.side.Long? then SlippedDown(cfg, price) else SlippedUp(cfg, price);
    var a, b := p.entry * p.quantity, exit * p.quantity;
    assert (p.entry + exit) * p.quantity == a + b;
    assert (a + b) * cfg.feePct == a * cfg.feePct + b * cfg.feePct;
  }

  /** Closing realises the equity marked at the exit, less the fees. */
  lemma CloseRealisesEquity(cfg: Settings, r: Progress, p: Position, price: real, reason: Reason, at: int)
    requires PaidEntry(cfg, p)
    ensures var exit := if p.side.Long? then SlippedDown(cfg, price) else SlippedUp(cfg, price);
            Exited(cfg, r, p, price, reason, at).balance == Equity(Some(p), r.balance, exit) - Fees(cfg, p, exit)
  {
    hide Fees, SlippedDown, SlippedUp, ExitPrice;
    ClosedExact(cfg, p, price, reason, at);
  }

  ghost predicate Booked(cfg: Settings, r: Progress)
  {
    (r.position.Some? ==> PaidEntry(cfg, r.position.value)) && forall t :: t in r.trades ==> Exact(cfg, t)
  }

  lemma DecidedBooked(cfg: Settings, strategy: Strategy, r: Progress, window: seq<Candle>, c: Candle)
    requires Booked(cfg, r)
    ensures Booked(cfg, Decided(cfg, strategy, r, window, c))
  {
    hide PaidEntry, Exact, Opened, Closed;
    var s := strategy(window);
    OpenedPays(cfg, s, c.close, r.balance, c.timestamp);
    if r.position.Some? {
      var p, exit := r.position.value, ExitOf(r.position.value, c);
      if exit.Some? { ClosedExact(cfg, p, exit.value.1, exit.value.0, c.timestamp); }
      ClosedExact(cfg, p, c.close, SignalExit, c.timestamp);
      var b := r.balance + Closed(cfg, p, c.close, SignalExit, c.timestamp).pnl;
      OpenedPays(cfg, s, c.close, b, c.timestamp);
    }
  }

  lemma {:induction false} RunBooked(cfg: Settings, strategy: Strategy, candles: seq<Candle>, warmup: nat, n: nat)
    requires n <= |candles|
    ensures Booked(cfg, Before(cfg, strategy, candles, warmup, n))
  {
    hide Decided, PaidEntry, Exact;
    if n > warmup {
      RunBooked(cfg, strategy, candles, warmup, n - 1);
      DecidedBooked(cfg, strategy, Before(cfg, strategy, candles, warmup, n - 1), Window(candles, warmup, n - 1),
                    candles[n - 1]);
    }
  }

  /** Over every run each trade books exactly what its prices say. */
  lemma EveryTradeExact(cfg: Settings, strategy: Strategy, candles: seq<Candle>, warmup: nat, t: Trade)
    requires t in Run(cfg, strategy, candles, warmup).trades
    ensures Exact(cfg, t)
  {
    hide Exact, PaidEntry, Closed;
    RunBooked(cfg, strategy, candles, warmup, |candles|);
    var r := Before(cfg, strategy, candles, warmup, |candles|);
    if r.position.Some? {
      var last := candles[|candles| - 1];
      ClosedExact(cfg, r.position.value, last.close, End, last.timestamp);
    }
  }

  /** The curve's last point is the final balance but for what the closing trade costs: its
      slippage and the fees. Without either the two are the same. */
  lemma CurveMeetsBalance(cfg: Settings, strategy: Strategy, candles: seq<Candle>, warmup: nat)
    ensures var (r, e) := (Before(cfg, strategy, candles, warmup, |candles|), Run(cfg, strategy, candles, warmup));
      e.curve != [] &&
      if r.position.None? then e.finalBalance == e.curve[|e.curve| - 1]
      else
        candles != [] &&
        var (p, close) := (r.position.value, candles[|candles| - 1].close);
        e.finalBalance == e.curve[|e.curve| - 1] - close * cfg.slippageBps / 10000.0 * p.quantity
                          - Fees(cfg, p, if p.side.Long? then SlippedDown(cfg, close) else SlippedUp(cfg, close))
  {
    hide Decided, Fees, ExitPrice, Closed, PaidEntry;
    var r := Before(cfg, strategy, candles, warmup, |candles|);
    RunBooked(cfg, strategy, candles, warmup, |candles|);
    if |candles| > warmup {
      BarOf(cfg, strategy, Before(cfg, strategy, candles, warmup, |candles| - 1),
            Window(candles, warmup, |candles| - 1), candles[|candles| - 1]);
      if r.position.Some? {
        var (p, close) := (r.position.value, candles[|candles| - 1].close);
        CloseRealisesEquity(cfg, r, p, close, End, candles[|candles| - 1].timestamp);
        EquityMoves(p, r.balance, close, close * cfg.slippageBps / 10000.0);
      }
    }
  }

  lemma EquityMoves(p: Position, balance: real, price: real, d: real)
    ensures Equity(Some(p), balance, if p.side.Long? then price - d else price + d)
         == Equity(Some(p), balance, price) - d * p.quantity
  {
  }

  // ------------------------------------------------------------------- what a bar decides

  /** The bar touched a positive level that lies against the position, or in its favour. */
  predicate FellTo(level: real, c: Candle) { level > 0.0 && c.low <= level }
  predicate RoseTo(level: real, c: Candle) { level > 0.0 && c.high >= level }

  /** `r` with the position closed at a price before slippage. */
  predicate ClosedAt(cfg: Settings, r: Progress, p: Position, price: real, reason: Reason, c: Candle, d: Progress)
  {
    && |d.trades| == |r.trades| + 1 && r.trades <= d.trades
    && var t := d.trades[|r.trades|];
       && t.position == p && t.reason == reason && t.exitTime == c.timestamp
       && t.exit == (if p.side.Long? then SlippedDown(cfg, price) else SlippedUp(cfg, price))
       && d.balance == r.balance + t.pnl
  }

  /** A bar with a position open: out at the stop if the bar touched it, else at the target if it
      touched that, else out at the close only on the opposite signal. */
  lemma BarWithPosition(cfg: Settings, strategy: Strategy, r: Progress, window: seq<Candle>, c: Candle)
    requires r.position.Some?
    ensures var (p, s, d) := (r.position.value, strategy(window), Decided(cfg, strategy, r, window, c));
            var stopped := if p.side.Long? then FellTo(p.stopLoss, c) else RoseTo(p.stopLoss, c);
            var reached := if p.side.Long? then RoseTo(p.takeProfit, c) else FellTo(p.takeProfit, c);
            if stopped then d.position == None && ClosedAt(cfg, r, p, p.stopLoss, StopLoss, c, d)
            else if reached then d.position == None && ClosedAt(cfg, r, p, p.takeProfit, TakeProfit, c, d)
            else if (p.side.Long? && s.direction.Short?) || (p.side.Short? && s.direction.Long?) then
              ClosedAt(cfg, r, p, c.close, SignalExit, c, d) &&
              d.position == Opened(cfg, s, c.close, d.balance, c.timestamp)
            else d.position == r.position && d.trades == r.trades && d.balance == r.balance
    ensures var (p, s, d) := (r.position.value, strategy(window), Decided(cfg, strategy, r, window, c));
            var out := (p.side.Long? && (FellTo(p.stopLoss, c) || RoseTo(p.takeProfit, c))) ||
                       (!p.side.Long? && (RoseTo(p.stopLoss, c) || FellTo(p.takeProfit, c)));
            && d.signals == (if out then r.signals else r.signals + 1)
            && d.valid == (if out || s.direction.Neutral? then r.valid else r.valid + 1)
  {
    hide Opened;
    var p := r.position.value;
    ExitIs(cfg, p.side, p.stopLoss);
    ExitIs(cfg, p.side, p.takeProfit);
    ExitIs(cfg, p.side, c.close);
    hide ExitPrice, SlippedDown, SlippedUp;
  }

  lemma ExitIs(cfg: Settings, side: Direction, price: real)
    ensures ExitPrice(cfg, side, price) == if side.Long? then SlippedDown(cfg, price) else SlippedUp(cfg, price)
  {
  }

  /** A bar without one: a signal opens a position at the close after slippage, as large as both
      limits allow -- it meets the risk limit or the notional limit exactly -- and with its stop
      and target; otherwise nothing happens. */
  lemma BarWithoutPosition(cfg: Settings, strategy: Strategy, r: Progress, window: seq<Candle>, c: Candle)
    requires r.position.None?
    ensures var (s, d) := (strategy(window), Decided(cfg, strategy, r, window, c));
            && d.trades == r.trades && d.balance == r.balance
            && (s.direction.Neutral? ==> d.position.None?)
            && d.signals == r.signals + 1 && d.valid == (if s.direction.Neutral? then r.valid else r.valid + 1)
            && (d.position.Some? ==>
                  var p := d.position.value;
                  && p.side == s.direction && p.stopLoss == s.stopLoss && p.takeProfit == s.takeProfit
                  && p.entryTime == c.timestamp
                  && p.entry == (if p.side.Long? then SlippedUp(cfg, c.close) else SlippedDown(cfg, c.close))
                  && (p.quantity * Abs(p.entry - p.stopLoss) == r.balance * cfg.riskPct / 100.0 ||
                      p.quantity * p.entry == r.balance * cfg.leverage * cfg.maxPositionPct / 100.0))
  {
    var s := strategy(window);
    EntryIs(cfg, s.direction, c.close);
    hide EntryPrice, SlippedDown, SlippedUp;
    OpenedMeetsLimit(cfg, s, c.close, r.balance, c.timestamp);
  }

  /** With money, limits and a positive entry away from the stop, a signal is taken. */
  lemma OpensWhenItCan(cfg: Settings, s: Signal, price: real, balance: real, at: int)
    requires balance > 0.0 && cfg.riskPct > 0.0 && cfg.leverage > 0.0 && cfg.maxPositionPct > 0.0
    requires var entry := if s.direction.Long? then SlippedUp(cfg, price) else SlippedDown(cfg, price);
             entry > 0.0 && entry != s.stopLoss
    ensures Opened(cfg, s, price, balance, at).Some?
  {
    EntryIs(cfg, s.direction, price);
    hide EntryPrice, SlippedUp, SlippedDown;
    var fill := EntryPrice(cfg, s.direction, price);
    Shares(balance, cfg.riskPct, Abs(fill - s.stopLoss));
    assert balance * cfg.leverage > 0.0;
    Shares(balance * cfg.leverage, cfg.maxPositionPct, fill);
  }

  lemma Shares(x: real, pct: real, y: real)
    requires x > 0.0 && pct > 0.0 && y > 0.0
    ensures x * pct / 100.0 / y > 0.0
  {
  }

  lemma EntryIs(cfg: Settings, side: Direction, price: real)
    ensures EntryPrice(cfg, side, price) == if side.Long? then SlippedUp(cfg, price) else SlippedDown(cfg, price)
  {
  }

  lemma OpenedMeetsLimit(cfg: Settings, s: Signal, price: real, balance: real, at: int)
    ensures var o := Opened(cfg, s, price, balance, at);
            o.Some? ==>
              var p := o.value;
              p.quantity * Abs(p.entry - p.stopLoss) == balance * cfg.riskPct / 100.0 ||
              p.quantity * p.entry == balance * cfg.leverage * cfg.maxPositionPct / 100.0
  {
  }

  // ------------------------------------------------------------------- drawdowns

  /** `p` is the highest point of the curve up to and including `k`. */
  predicate IsPeak(curve: seq<real>, k: nat, p: real)
    requires k < |curve|
  {
    (forall j :: 0 <= j <= k ==> curve[j] <= p) && (exists j :: 0 <= j <= k && curve[j] == p)
  }

  /** `d` is the largest fall of any bar from the highest point up to it. */
  ghost predicate IsMaxDrawdown(curve: seq<real>, d: real)
  {
    (forall k, p :: 0 <= k < |curve| && IsPeak(curve, k, p) ==> Fall(p, curve[k]) <= d) &&
    (exists k, p :: 0 <= k < |curve| && IsPeak(curve, k, p) && Fall(p, curve[k]) == d)
  }

  /** A fall is in percent of a positive peak. */
  lemma FallIs(peak: real, equity: real)
    ensures if peak > 0.0 then Fall(peak, equity) * peak == 100.0 * (peak - equity) else Fall(peak, equity) == 0.0
  {
  }

  lemma PeakUnique(curve: seq<real>, k: nat, p: real, q: real)
    requires k < |curve| && IsPeak(curve, k, p) && IsPeak(curve, k, q)
    ensures p == q
  {
  }

  lemma PeakOfPrefix(curve: seq<real>, x: real, k: nat, p: real)
    requires k < |curve|
    ensures IsPeak(curve + [x], k, p) <==> IsPeak(curve, k, p)
  {
    assert forall j :: 0 <= j <= k ==> (curve + [x])[j] == curve[j];
  }

  lemma PeakExtended(curve: seq<real>, x: real, p: real)
    requires curve != [] && IsPeak(curve, |curve| - 1, p)
    ensures IsPeak(curve + [x], |curve|, Max(p, x))
  {
    var more := curve + [x];
    assert forall j :: 0 <= j < |curve| ==> more[j] == curve[j];
    var j :| 0 <= j <= |curve| - 1 && curve[j] == p;
    assert more[j] == p && more[|curve|] == x;
  }

  lemma DrawdownExtended(curve: seq<real>, x: real, p: real, d: real)
    requires curve != [] && IsPeak(curve, |curve| - 1, p) && IsMaxDrawdown(curve, d)
    ensures IsPeak(curve + [x], |curve|, Max(p, x)) && IsMaxDrawdown(curve + [x], Max(d, Fall(Max(p, x), x)))
  {
    hide IsPeak, Fall;
    var more, top := curve + [x], Max(p, x);
    PeakExtended(curve, x, p);
    forall k, q | 0 <= k < |more| && IsPeak(more, k, q) ensures Fall(q, more[k]) <= Max(d, Fall(top, x)) {
      if k < |curve| { PeakOfPrefix(curve, x, k, q); }
      else { PeakUnique(more, k, q, top); }
    }
    var k, q :| 0 <= k < |curve| && IsPeak(curve, k, q) && Fall(q, curve[k]) == d;
    PeakOfPrefix(curve, x, k, q);
    assert IsPeak(more, k, q) && Fall(q, more[k]) == d;
    assert IsPeak(more, |curve|, top) && Fall(top, more[|curve|]) == Fall(top, x);
  }

  lemma {:induction false} DrawdownTracked(cfg: Settings, strategy: Strategy, candles: seq<Candle>, warmup: nat, n: nat)
    requires n <= |candles|
    ensures var r := Before(cfg, strategy, candles, warmup, n);
            r.curve != [] && IsPeak(r.curve, |r.curve| - 1, r.peak) && IsMaxDrawdown(r.curve, r.maxDrawdown)
  {
    hide IsMaxDrawdown, IsPeak, Bar, Decided, Equity, Fall;
    if n > warmup {
      BarOf(cfg, strategy, Before(cfg, strategy, candles, warmup, n - 1), Window(candles, warmup, n - 1),
            candles[n - 1]);
      var r := Before(cfg, strategy, candles, warmup, n - 1);
      DrawdownTracked(cfg, strategy, candles, warmup, n - 1);
      var d := Decided(cfg, strategy, r, Window(candles, warmup, n - 1), candles[n - 1]);
      DrawdownExtended(r.curve, Equity(d.position, d.balance, candles[n - 1].close), r.peak, r.maxDrawdown);
      DecidedCurve(cfg, strategy, r, Window(candles, warmup, n - 1), candles[n - 1]);
    } else {
      StartDrawdown(cfg.initial);
    }
  }

  /** The reported maximum drawdown is the largest fall from the running peak of the curve. */
  lemma MaxDrawdownExact(cfg: Settings, strategy: Strategy, candles: seq<Candle>, warmup: nat)
    ensures var e := Run(cfg, strategy, candles, warmup); IsMaxDrawdown(e.curve, e.maxDrawdown)
  {
    hide IsMaxDrawdown;
    DrawdownTracked(cfg, strategy, candles, warmup, |candles|);
  }

  lemma DecidedCurve(cfg: Settings, strategy: Strategy, r: Progress, window: seq<Candle>, c: Candle)
    ensures var d := Decided(cfg, strategy, r, window, c);
            d.curve == r.curve && d.peak == r.peak && d.maxDrawdown == r.maxDrawdown
  {
  }

  lemma StartDrawdown(x: real)
    ensures IsPeak([x], 0, x) && IsMaxDrawdown([x], 0.0)
  {
  }

  /** Bar `k` lies strictly below an earlier one. */
  predicate Under(curve: seq<real>, k: nat)
    requires k < |curve|
  {
    exists j :: 0 <= j < k && curve[j] > curve[k]
  }

  /** The bars from `a` to `b` are all under water. */
  predicate Stretch(curve: seq<real>, a: nat, b: nat)
    requires a <= b <= |curve|
  {
    forall k :: a <= k < b ==> Under(curve, k)
  }

  // ------------------------------------------------------------------------ the object

  class Backtester {
    const cfg: Settings
    var position: Option<Position>
    var balance: real
    var trades: seq<Trade>
    var curve: seq<real>
    var peak: real
    var maxDrawdown: real
    var signals: nat
    var valid: nat

    ghost function View(): Progress
      reads this
    {
      Progress(position, balance, trades, curve, peak, maxDrawdown, signals, valid)
    }

    constructor (cfg: Settings)
      ensures this.cfg == cfg
    {
      this.cfg := cfg;
    }

    method ClosePosition(p: Position, price: real, reason: Reason, at: int)
      modifies this
      ensures View() == Exited(cfg, old(View()), p, price, reason, at).(position := old(position))
    {
      var exit := ExitPrice(cfg, p.side, price);
      var pnl := if p.side.Long? then (exit - p.entry) * p.quantity else (p.entry - exit) * p.quantity;
      var fees := p.fee + exit * p.quantity * cfg.feePct / 100.0;
      pnl := pnl - fees;
      assert pnl == Closed(cfg, p, price, reason, at).pnl && fees == Closed(cfg, p, price, reason, at).fees;
      trades := trades + [Trade(p, exit, at, pnl, reason, fees)];
      balance := balance + pnl;
    }

    method ManagePositionOrEntry(strategy: Strategy, window: seq<Candle>, c: Candle)
      modifies this
      ensures View() == Decided(cfg, strategy, old(View()), window, c)
    {
      hide Closed, SizeOf, EntryPrice;
      if position.Some? {
        var p := position.value;
        var exit := ExitOf(p, c);
        if exit.Some? {
          ClosePosition(p, exit.value.1, exit.value.0, c.timestamp);
          position := None;
          return;
        }
      }
      var s := strategy(window);
      signals := signals + 1;
      if Actionable(s) {
        valid := valid + 1;
        if position.None? {
          position := Opened(cfg, s, c.close, balance, c.timestamp);
        } else if Reverses(position.value.side, s.direction) {
          ClosePosition(position.value, c.close, SignalExit, c.timestamp);
          position := Opened(cfg, s, c.close, balance, c.timestamp);
        }
      }
    }

    method TrackEquityAndDrawdown(price: real)
      modifies this
      ensures View() == Tracked(old(View()), price)
    {
      var equity := Equity(position, balance, price);
      curve := curve + [equity];
      peak := Max(peak, equity);
      var drawdown := if peak > 0.0 then (peak - equity) / peak * 100.0 else 0.0;
      maxDrawdown := Max(maxDrawdown, drawdown);
    }

    method Replay(candles: seq<Candle>, strategy: Strategy, warmup: nat) returns (result: Result, longest: nat)
      modifies this
      ensures result == Run(cfg, strategy, candles, warmup)
      ensures exists a, b :: 0 <= a <= b <= |result.curve| && Stretch(result.curve, a, b) && b - a == longest
      ensures forall a, b :: 0 <= a <= b <= |result.curve| && Stretch(result.curve, a, b) ==> b - a <= longest
    {
      hide Bar, Stretch;
      position, balance, trades, curve := None, cfg.initial, [], [cfg.initial];
      peak, maxDrawdown, signals, valid := cfg.initial, 0.0, 0, 0;
      var i := warmup;
      while i < |candles|
        invariant warmup <= i && (i <= |candles| || i == warmup)
        invariant View() == Before(cfg, strategy, candles, warmup, if i < |candles| then i else |candles|)
      {
        var window := Window(candles, warmup, i);
        BarOf(cfg, strategy, View(), window, candles[i]);
        ManagePositionOrEntry(strategy, window, candles[i]);
        TrackEquityAndDrawdown(candles[i].close);
        i := i + 1;
      }
      ghost var r := View();
      if position.Some? {
        ClosePosition(position.value, candles[|candles| - 1].close, End, candles[|candles| - 1].timestamp);
      }
      result := Result(balance, trades, curve, maxDrawdown);
      CurveStarts(cfg, strategy, candles, warmup, |candles|);
      longest := LongestDrawdown(curve);
    }

    /** The length of the longest stretch of consecutive bars below the running peak. */
    static method LongestDrawdown(curve: seq<real>) returns (longest: nat)
      requires curve != []
      ensures exists a, b :: 0 <= a <= b <= |curve| && Stretch(curve, a, b) && b - a == longest
      ensures forall a, b :: 0 <= a <= b <= |curve| && Stretch(curve, a, b) ==> b - a <= longest
    {
      hide Stretch, IsPeak;
      longest := 0;
      var current, peak := 0, curve[0];
      ghost var a, b := 0, 0;
      EmptyStretch(curve, 0);
      PeakOfFirst(curve);
      var i := 0;
      while i < |curve|
        invariant 0 <= current <= i <= |curve| && IsPeak(curve, if i == 0 then 0 else i - 1, peak)
        invariant Stretch(curve, i - current, i) && (i > current ==> !Under(curve, i - current - 1))
        invariant 0 <= a <= b <= i && Stretch(curve, a, b) && b - a == longest
        invariant forall x, y :: 0 <= x <= y <= i && Stretch(curve, x, y) ==> y - x <= longest || y - x <= current
      {
        UnderIff(curve, i, peak);
        StretchesTo(curve, i, i + 1, current);
        if curve[i] >= peak {
          if current > 0 {
            if current > longest { longest, a, b := current, i - current, i; }
            current := 0;
          }
          peak := curve[i];
        } else {
          current := current + 1;
        }
        i := i + 1;
        EmptyStretch(curve, i);
      }
      if current > longest { longest, a, b := current, i - current, i; }
    }
  }

  lemma BarOf(cfg: Settings, strategy: Strategy, r: Progress, window: seq<Candle>, c: Candle)
    ensures Bar(cfg, strategy, r, window, c) == Tracked(Decided(cfg, strategy, r, window, c), c.close)
  {
  }

  lemma {:induction false} CurveStarts(cfg: Settings, strategy: Strategy, candles: seq<Candle>, warmup: nat, n: nat)
    requires n <= |candles|
    ensures Before(cfg, strategy, candles, warmup, n).curve != []
  {
  }

  lemma EmptyStretch(curve: seq<real>, a: nat)
    requires a <= |curve|
    ensures Stretch(curve, a, a)
  {
  }

  lemma PeakOfFirst(curve: seq<real>)
    requires curve != []
    ensures IsPeak(curve, 0, curve[0])
  {
  }

  /** Being below the running peak is being below some earlier bar. */
  lemma UnderIff(curve: seq<real>, i: nat, peak: real)
    requires i < |curve| && IsPeak(curve, if i == 0 then 0 else i - 1, peak)
    ensures Under(curve, i) <==> curve[i] < peak
    ensures curve[i] >= peak ==> IsPeak(curve, i, curve[i])
    ensures curve[i] < peak ==> IsPeak(curve, i, peak)
  {
  }

  lemma StretchesTo(curve: seq<real>, i: nat, n: nat, current: nat)
    requires n == i + 1 && current <= i < |curve| && Stretch(curve, i - current, i) &&
      (i > current ==> !Under(curve, i - current - 1))
    ensures Under(curve, i) ==> Stretch(curve, i - current, i + 1)
    ensures forall x :: 0 <= x <= i && Stretch(curve, x, n) ==> Under(curve, i) && n - x <= current + 1
  {
  }
}
