/** Bounds on forced closes: how the liquidation levels relate, what a position in the
    partial band loses per check, and what a full liquidation leaves in the balance. */
module LiquidationBounds {
  import opened Basics
  import opened Rounding
  import opened Accounts
  import opened Journal
  import opened Desk
  import opened Engine
  import opened Runs

  // ---------------------------------------------------------------- levels

  lemma ScaleMonotone(p: real, x: real, y: real)
    requires p >= 0.0 && x <= y
    ensures p * x <= p * y
  {
  }

  lemma LevelsOrdered(cfg: Config, p: Position)
    requires cfg.partialRatio <= 1.0 && p.entry >= 0.0
    ensures if p.side == Buy then LiquidationPrice(cfg, p.side, p.entry) <= PartialPrice(cfg, p.side, p.entry)
            else LiquidationPrice(cfg, p.side, p.entry) >= PartialPrice(cfg, p.side, p.entry)
  {
    hide Level, Lever, PartialShare;
    LeverPositive(cfg);
    OrderedLevels(p.side, p.entry, 1.0 / Lever(cfg), PartialShare(cfg), cfg.maintenance);
  }

  lemma OrderedLevels(side: Side, e: real, l: real, x: real, m: real)
    requires e >= 0.0 && x <= l
    ensures if side == Buy then Level(side, e, l, m) <= Level(side, e, x, m)
            else Level(side, e, x, m) <= Level(side, e, l, m)
  {
    hide Round2;
    ScaleMonotone(e, 1.0 - l + m, 1.0 - x + m);
    ScaleMonotone(e, 1.0 + x - m, 1.0 + l - m);
    if side == Buy {
      Round2Facts(e * (1.0 - l + m), e * (1.0 - x + m));
    } else {
      Round2Facts(e * (1.0 + x - m), e * (1.0 + l - m));
    }
  }

  lemma LeverPositive(cfg: Config)
    ensures Lever(cfg) > 0.0 && 1.0 / Lever(cfg) > 0.0
    ensures cfg.partialRatio <= 1.0 ==> PartialShare(cfg) <= 1.0 / Lever(cfg)
  {
  }

  /** With a ratio of at most one the partial level is reached first. */
  lemma FullImpliesPartial(cfg: Config, p: Position, price: real)
    requires cfg.partialRatio <= 1.0 && p.entry >= 0.0
    requires Breached(p.side, price, LiquidationPrice(cfg, p.side, p.entry))
    ensures Breached(p.side, price, PartialPrice(cfg, p.side, p.entry))
  {
    hide LiquidationPrice, PartialPrice;
    LevelsOrdered(cfg, p);
  }

  /** Distance from an entry to a level before it is rounded. */
  function Room(entry: real, share: real, maintenance: real): real { entry * (share - maintenance) }

  function PartialRoom(cfg: Config, p: Position): real
  {
    Room(p.entry, cfg.partialRatio / (if cfg.leverage > 0 then cfg.leverage as real else 1.0), cfg.maintenance)
  }

  lemma SharesAre(cfg: Config)
    ensures var times := if cfg.leverage > 0 then cfg.leverage as real else 1.0;
            Lever(cfg) == times && times > 0.0 && PartialShare(cfg) == cfg.partialRatio / times
  {
  }

  /** The full level lies within half a cent of the entry less (short: plus) the entry's share of
      the leverage, with the maintenance margin on the safe side; the partial level likewise, with
      the ratio's part of that share. */
  lemma LevelsNear(cfg: Config, p: Position)
    ensures var times := if cfg.leverage > 0 then cfg.leverage as real else 1.0;
            var full := Room(p.entry, 1.0 / times, cfg.maintenance);
            var partial := Room(p.entry, cfg.partialRatio / times, cfg.maintenance);
            var (first, last) := (PartialPrice(cfg, p.side, p.entry), LiquidationPrice(cfg, p.side, p.entry));
            && -0.005 <= last - (if p.side == Buy then p.entry - full else p.entry + full) <= 0.005
            && -0.005 <= first - (if p.side == Buy then p.entry - partial else p.entry + partial) <= 0.005
  {
    hide Level, Lever, PartialShare, Room;
    var times := if cfg.leverage > 0 then cfg.leverage as real else 1.0;
    SharesAre(cfg);
    LevelAbout(p.side, p.entry, 1.0 / times, cfg.maintenance);
    LevelAbout(p.side, p.entry, cfg.partialRatio / times, cfg.maintenance);
  }

  lemma LevelAbout(side: Side, e: real, x: real, m: real)
    ensures var room := Room(e, x, m);
            -0.005 <= Level(side, e, x, m) - (if side == Buy then e - room else e + room) <= 0.005
  {
    LevelNear(side, e, x, m, Room(e, x, m));
  }

  lemma LevelNear(side: Side, e: real, x: real, m: real, room: real)
    requires room == e * (x - m)
    ensures -0.005 <= Level(side, e, x, m) - (if side == Buy then e - room else e + room) <= 0.005
  {
  }

  /** Marked at its entry a position is liquidated neither fully nor partially when it has
      more than half a cent of room, and is when it lacks as much; in between the rounding
      of the level decides. */
  lemma LiquidatedAtEntry(cfg: Config, p: Position)
    requires cfg.partialRatio <= 1.0 && p.entry >= 0.0
    ensures PartialRoom(cfg, p) > 0.005 ==>
              && !Breached(p.side, p.entry, PartialPrice(cfg, p.side, p.entry))
              && !Breached(p.side, p.entry, LiquidationPrice(cfg, p.side, p.entry))
    ensures PartialRoom(cfg, p) < -0.005 ==>
              Breached(p.side, p.entry, PartialPrice(cfg, p.side, p.entry))
  {
    hide Level, Lever, PartialShare;
    SharesAre(cfg);
    LevelNear(p.side, p.entry, PartialShare(cfg), cfg.maintenance, PartialRoom(cfg, p));
    LevelsOrdered(cfg, p);
    hide PartialRoom;
  }

  /** The whole cents at an entry price: those above it for a long, below it for a short. */
  function EntryCents(side: Side, entry: real): int
  {
    if side == Buy then -((-entry * 100.0).Floor) else (entry * 100.0).Floor
  }

  /** How much of a cent lies between the entry and those. */
  function EntrySlack(side: Side, entry: real): real
  {
    var cents := EntryCents(side, entry) as real;
    if side == Buy then cents - entry * 100.0 else entry * 100.0 - cents
  }

  lemma LevelBeyondIff(side: Side, e: real, x: real, m: real, room: real)
    requires room == e * (x - m)
    ensures var cents := room * 100.0 + EntrySlack(side, e);
            !Breached(side, e, Level(side, e, x, m))
            <==> cents > 0.5 || (cents == 0.5 && EntryCents(side, e) % 2 == 1)
  {
    hide EntryCents, RoundHalfEven;
    if side == Buy {
      assert e * (1.0 - x + m) == e - room;
      RoundsBelowIff(e - room, e);
    } else {
      assert e * (1.0 + x - m) == e + room;
      RoundsAboveIff(e + room, e);
    }
  }

  lemma RoundsBelowIff(price: real, e: real)
    ensures var n := EntryCents(Buy, e);
            Round2(price) < e <==> price * 100.0 < n as real - 0.5 || (price * 100.0 == n as real - 0.5 && n % 2 == 1)
  {
    RoundedAgainst(price * 100.0, EntryCents(Buy, e));
  }

  lemma RoundsAboveIff(price: real, e: real)
    ensures var n := EntryCents(Sell, e);
            Round2(price) > e <==> price * 100.0 > n as real + 0.5 || (price * 100.0 == n as real + 0.5 && n % 2 == 1)
  {
    RoundedAgainst(price * 100.0, EntryCents(Sell, e));
  }

  lemma RoundedAgainst(y: real, n: int)
    ensures RoundHalfEven(y) < n <==> y < n as real - 0.5 || (y == n as real - 0.5 && n % 2 == 1)
    ensures RoundHalfEven(y) > n <==> y > n as real + 0.5 || (y == n as real + 0.5 && n % 2 == 1)
  {
    var f := y.Floor;
    assert RoundHalfEven(y) == f || RoundHalfEven(y) == f + 1;
    assert n == f + 1 ==> y - f as real == y - (n as real - 1.0);
  }

  /** Marked at its entry a position is in no liquidation if and only if its room, with what the
      entry lacks to a whole cent, is more than half a cent, or half a cent from an odd one. */
  lemma LiquidatedAtEntryIff(cfg: Config, p: Position)
    requires cfg.partialRatio <= 1.0 && p.entry >= 0.0
    ensures var cents := PartialRoom(cfg, p) * 100.0 + EntrySlack(p.side, p.entry);
            (&& !Breached(p.side, p.entry, PartialPrice(cfg, p.side, p.entry))
             && !Breached(p.side, p.entry, LiquidationPrice(cfg, p.side, p.entry)))
            <==> cents > 0.5 || (cents == 0.5 && EntryCents(p.side, p.entry) % 2 == 1)
  {
    hide Level, Lever, PartialShare, EntryCents, EntrySlack;
    SharesAre(cfg);
    LevelBeyondIff(p.side, p.entry, PartialShare(cfg), cfg.maintenance, PartialRoom(cfg, p));
    LevelsOrdered(cfg, p);
    hide PartialRoom;
  }

  // ---------------------------------------------------------------- the insurance fund

  /** After a full liquidation the balance is not negative, and the fund paid exactly what
      was missing. */
  lemma LiquidationCovered(cfg: Config, st: State, t: Trigger, price: real)
    requires t.reason == Liquidation
    ensures var closed := Submit(cfg, st, CloseRequest(t), price, true).acct;
            var r := CloseTriggered(cfg, st, t, price).acct;
            && r.balance >= 0.0
            && r.balance + r.insurance == closed.balance + closed.insurance
            && (r.insurance < closed.insurance ==> r.balance == 0.0) && (closed.balance >= 0.0 ==> r == closed)
  {
  }

  /** No other close is paid for by the fund. */
  lemma OthersUncovered(cfg: Config, st: State, t: Trigger, price: real)
    requires t.reason != Liquidation
    ensures CloseTriggered(cfg, st, t, price).acct.insurance == st.acct.insurance
  {
    hide Enter, MarketPrice, RoundPrice, Averaged, Round4, UpdatePosition, Unresolved;
    var req := CloseRequest(t);
    if Refuses(req).None? {
      var o := NewOrder(req);
      var f := ImmediateFill(cfg, st.desk.next, req, o, MarketPrice(cfg, price, o.side, o.quantity));
      FillLeaves(Charged(st.acct, f), f);
    }
  }

  // ---------------------------------------------------------------- one symbol at a time

  function Lookup(ps: seq<Position>, s: Symbol): Option<Position>
  {
    var i := IndexOf(ps, s);
    if i == |ps| then None else Some(ps[i])
  }

  lemma LookupOf(ps: seq<Position>, s: Symbol, p: Position)
    requires OnePerSymbol(ps) && p in ps && p.symbol == s
    ensures Lookup(ps, s) == Some(p)
  {
  }

  lemma LookupNone(ps: seq<Position>, s: Symbol)
    requires forall p :: p in ps ==> p.symbol != s
    ensures Lookup(ps, s) == None
  {
  }

  /** A fill in one symbol leaves the position in another alone. */
  lemma SpliceFrame(ps: seq<Position>, gone: seq<Position>, qs: seq<Position>, i: nat,
                    added: seq<Position>, x: Symbol, s: Symbol)
    requires i <= |ps| && Respliced(ps, gone, qs, i, added) && OnePerSymbol(ps) && OnePerSymbol(qs)
    requires (forall p :: p in added ==> p.symbol == x) && (i < |ps| ==> ps[i].symbol == x) && x != s
    ensures Lookup(qs, s) == Lookup(ps, s)
  {
    var l := Lookup(ps, s);
    if l.Some? {
      var j := IndexOf(ps, s);
      assert j != i;
      if i < |ps| {
        assert Without(ps, i)[if j < i then j else j - 1] == ps[j];
        assert ps[j] in Without(ps, i);
        assert |added| == 1 ==> ps[i := added[0]][j] == ps[j];
      } else {
        assert (ps + added)[j] == ps[j];
      }
      assert ps[j] in qs;
      LookupOf(qs, s, l.value);
    } else {
      forall q | q in qs ensures q.symbol != s {
        assert q in added || q in ps;
      }
      LookupNone(qs, s);
    }
  }

  lemma UpdateFrame(a: Account, f: Fill, s: Symbol)
    requires OnePerSymbol(a.positions) && f.symbol != s
    ensures Lookup(UpdatePosition(a, f).positions, s) == Lookup(a.positions, s)
  {
    hide UpdatePosition, Respliced, Lookup, OnePerSymbol;
    var i, r := IndexOf(a.positions, f.symbol), UpdatePosition(a, f);
    FillSplices(a, f);
    var gone :| r.abandoned == a.abandoned + gone && Respliced(a.positions, gone, r.positions, i, Added(a, f));
    AddedSymbol(a, f);
    SpliceKeepsOnePerSymbol(a.positions, gone, r.positions, i, Added(a, f), f.symbol);
    SpliceFrame(a.positions, gone, r.positions, i, Added(a, f), f.symbol, s);
  }

  lemma AddedSymbol(a: Account, f: Fill)
    ensures |Added(a, f)| <= 1 && forall p :: p in Added(a, f) ==> p.symbol == f.symbol
  {
  }

  /** A smaller opposite fill shrinks the position and releases its share of the margin. */
  lemma UpdateReduces(a: Account, f: Fill, p: Position)
    requires Lookup(a.positions, f.symbol) == Some(p) && p.side != f.side && f.quantity < p.quantity
    ensures Lookup(UpdatePosition(a, f).positions, f.symbol) == Some(Reduced(p, f))
  {
    var i := IndexOf(a.positions, f.symbol);
    var qs := a.positions[i := Reduced(p, f)];
    assert UpdatePosition(a, f).positions == qs;
    var j := IndexOf(qs, f.symbol);
    assert qs[i].symbol == f.symbol;
    assert forall k :: 0 <= k < i ==> qs[k] == a.positions[k];
    assert j == i;
  }

  /** A close request in another symbol leaves the position alone, whatever becomes of it. */
  lemma CloseFrame(cfg: Config, st: State, t: Trigger, price: real, s: Symbol)
    requires OnePerSymbol(st.acct.positions) && t.symbol != s
    ensures Lookup(CloseTriggered(cfg, st, t, price).acct.positions, s) == Lookup(st.acct.positions, s)
  {
    hide Lookup, OnePerSymbol, Enter, MarketPrice, RoundPrice, Averaged, Round4, UpdatePosition, Unresolved;
    var req := CloseRequest(t);
    if Refuses(req).None? {
      var o := NewOrder(req);
      var f := ImmediateFill(cfg, st.desk.next, req, o, MarketPrice(cfg, price, o.side, o.quantity));
      UpdateFrame(Charged(st.acct, f), f, s);
    }
  }

  /** A partial close always fills, at the market and without margin. */
  lemma CloseReduces(cfg: Config, st: State, t: Trigger, price: real, p: Position)
    requires Lookup(st.acct.positions, t.symbol) == Some(p) && p.side == t.side
    requires 0.0 < t.quantity < p.quantity && t.quantity <= MAX_QUANTITY && price != 0.0
    ensures var r := Lookup(CloseTriggered(cfg, st, t, price).acct.positions, t.symbol);
            && r.Some? && r.value == p.(quantity := p.quantity - t.quantity,
                                        margin := p.margin - ShareOf(p.margin, t.quantity, p.quantity))
  {
    hide Lookup, Enter, MarketPrice, RoundPrice, Averaged, Round4, UpdatePosition;
    var req := CloseRequest(t);
    var o := NewOrder(req);
    var f := ImmediateFill(cfg, st.desk.next, req, o, MarketPrice(cfg, price, o.side, o.quantity));
    UpdateReduces(Charged(st.acct, f), f, p);
  }

  // ---------------------------------------------------------------- the partial band

  function Pow(x: real, n: nat): real { if n == 0 then 1.0 else x * Pow(x, n - 1) }

  /** In the partial band: past the partial level, short of the full one. */
  predicate InBand(cfg: Config, p: Position, price: real)
  {
    && !Breached(p.side, price, LiquidationPrice(cfg, p.side, p.entry))
    && Breached(p.side, price, PartialPrice(cfg, p.side, p.entry))
  }

  /** `r` is `p` after a close of the configured share: same symbol, side and entry, and
      the same margin per unit. */
  predicate ShrunkBy(p: Position, r: Position, factor: real)
  {
    && r.symbol == p.symbol && r.side == p.side && r.entry == p.entry
    && r.quantity == p.quantity * factor && r.margin == p.margin * factor
  }

  lemma {:induction false} TriggersElsewhere(cfg: Config, st: State, ps: seq<Position>, prices: Symbol -> real,
                                             s: Symbol, initial: real)
    requires Good(initial, st) && (forall p :: p in ps ==> p.symbol != s)
    ensures Lookup(CloseAll(cfg, st, Triggers(cfg, ps, prices), prices).acct.positions, s)
         == Lookup(st.acct.positions, s)
    decreases |ps|
  {
    hide Lookup, Reconciled, Sound, Matched, Persists, CloseTriggered, TriggerOf;
    if ps != [] {
      var t := TriggerOf(cfg, ps[0], prices(ps[0].symbol));
      var rest := Triggers(cfg, ps[1..], prices);
      if t.None? {
        assert Triggers(cfg, ps, prices) == rest;
        TriggersElsewhere(cfg, st, ps[1..], prices, s, initial);
      } else {
        TriggerSymbol(cfg, ps[0], prices(ps[0].symbol));
        var m := CloseTriggered(cfg, st, t.value, prices(t.value.symbol));
        assert Triggers(cfg, ps, prices)[1..] == rest;
        GoodOnePerSymbol(initial, st);
        CloseFrame(cfg, st, t.value, prices(t.value.symbol), s);
        CloseTriggeredKeeps(cfg, initial, st, t.value, prices(t.value.symbol));
        TriggersElsewhere(cfg, m, ps[1..], prices, s, initial);
      }
    }
  }

  lemma TriggerSymbol(cfg: Config, p: Position, price: real)
    ensures var t := TriggerOf(cfg, p, price);
            t.Some? ==> t.value.symbol == p.symbol && t.value.side == p.side
  {
  }

  lemma GoodOnePerSymbol(initial: real, st: State)
    requires Good(initial, st)
    ensures OnePerSymbol(st.acct.positions)
  {
  }

  lemma TailOnePerSymbol(ps: seq<Position>, p: Position)
    requires OnePerSymbol(ps) && p in ps
    ensures OnePerSymbol(ps[1..])
    ensures if ps[0] == p then forall q :: q in ps[1..] ==> q.symbol != p.symbol
            else p in ps[1..] && ps[0].symbol != p.symbol
  {
  }

  /** An opposite fill of the same size takes the position away. */
  lemma UpdateRemoves(a: Account, f: Fill, p: Position)
    requires OnePerSymbol(a.positions) && Lookup(a.positions, f.symbol) == Some(p)
    requires p.side != f.side && f.quantity == p.quantity
    ensures Lookup(UpdatePosition(a, f).positions, f.symbol) == None
  {
    var i := IndexOf(a.positions, f.symbol);
    assert UpdatePosition(a, f).positions == Accounts.Without(a.positions, i);
    LookupNone(Accounts.Without(a.positions, i), f.symbol);
  }

  /** What a forced close of up to the whole position leaves of it: nothing comes of one without a
      market price or of a size no order may have. */
  function Remainder(p: Position, quantity: real, mark: real): Option<Position>
    requires quantity <= p.quantity
  {
    if mark == 0.0 || quantity <= 0.0 || quantity > MAX_QUANTITY then Some(p)
    else if quantity == p.quantity then None
    else Some(p.(quantity := p.quantity - quantity, margin := p.margin - ShareOf(p.margin, quantity, p.quantity)))
  }

  lemma CloseLeaves(cfg: Config, st: State, t: Trigger, price: real, p: Position)
    requires OnePerSymbol(st.acct.positions) && Lookup(st.acct.positions, t.symbol) == Some(p)
    requires p.side == t.side && t.quantity <= p.quantity
    ensures Lookup(CloseTriggered(cfg, st, t, price).acct.positions, t.symbol) == Remainder(p, t.quantity, price)
  {
    hide Lookup, OnePerSymbol, Enter, MarketPrice, RoundPrice, Averaged, Round4, UpdatePosition;
    var req := CloseRequest(t);
    if Refuses(req).None? && price != 0.0 {
      if t.quantity < p.quantity {
        CloseReduces(cfg, st, t, price, p);
      } else {
        var o := NewOrder(req);
        var f := ImmediateFill(cfg, st.desk.next, req, o, MarketPrice(cfg, price, o.side, o.quantity));
        UpdateRemoves(Charged(st.acct, f), f, p);
      }
    }
  }

  /** The closes of one check: for each position its own matters, not those of the others. */
  lemma {:induction false} OwnClose(cfg: Config, st: State, ps: seq<Position>, prices: Symbol -> real, p: Position,
                                    initial: real)
    requires Good(initial, st) && OnePerSymbol(ps) && p in ps
    requires Lookup(st.acct.positions, p.symbol) == Some(p)
    requires var t := TriggerOf(cfg, p, prices(p.symbol)); t.Some? ==> t.value.quantity <= p.quantity
    ensures var t := TriggerOf(cfg, p, prices(p.symbol));
            var r := Lookup(CloseAll(cfg, st, Triggers(cfg, ps, prices), prices).acct.positions, p.symbol);
            r == (if t.None? then Some(p) else Remainder(p, t.value.quantity, prices(p.symbol)))
    decreases |ps|
  {
    hide Lookup, Good, Keeps, OnePerSymbol, CloseTriggered, TriggerOf, Remainder;
    var t := TriggerOf(cfg, ps[0], prices(ps[0].symbol));
    var rest := Triggers(cfg, ps[1..], prices);
    TriggerSymbol(cfg, ps[0], prices(ps[0].symbol));
    TailOnePerSymbol(ps, p);
    GoodOnePerSymbol(initial, st);
    assert t.None? ==> Triggers(cfg, ps, prices) == rest;
    assert t.Some? ==> Triggers(cfg, ps, prices)[0] == t.value && Triggers(cfg, ps, prices)[1..] == rest;
    if t.Some? {
      CloseTriggeredKeeps(cfg, initial, st, t.value, prices(t.value.symbol));
      KeepsGood(initial, st, CloseTriggered(cfg, st, t.value, prices(t.value.symbol)));
    }
    var m := if t.None? then st else CloseTriggered(cfg, st, t.value, prices(t.value.symbol));
    if ps[0] == p {
      if t.Some? { CloseLeaves(cfg, st, t.value, prices(p.symbol), p); }
      TriggersElsewhere(cfg, m, ps[1..], prices, p.symbol, initial);
    } else {
      if t.Some? { CloseFrame(cfg, st, t.value, prices(t.value.symbol), p.symbol); }
      OwnClose(cfg, m, ps[1..], prices, p, initial);
    }
  }

  // ---------------------------------------------------------------- one check, in plain comparisons

  /** The mark is at a positive stop, or past it. */
  predicate AtStop(p: Position, mark: real)
  {
    p.stopLoss > 0.0 && if p.side == Buy then mark <= p.stopLoss else mark >= p.stopLoss
  }

  /** The mark is at a positive target, or past it. */
  predicate AtTarget(p: Position, mark: real)
  {
    p.takeProfit > 0.0 && if p.side == Buy then mark >= p.takeProfit else mark <= p.takeProfit
  }

  /** The market has taken the position's margin up to a level. */
  predicate Past(p: Position, mark: real, level: real) { if p.side == Buy then mark <= level else mark >= level }

  /** The check of the stops position by position: liquidated past the full level, cut down by the
      configured ratio between the levels, else closed at its stop or target, and left alone
      otherwise -- or when there is no market, or the close is larger than an order may be. */
  lemma CheckDecides(cfg: Config, initial: real, st: State, prices: Symbol -> real, p: Position)
    requires Good(initial, st) && Lookup(st.acct.positions, p.symbol) == Some(p) && 0.0 < cfg.partialRatio < 1.0
    ensures var mark := prices(p.symbol);
            var full := Past(p, mark, LiquidationPrice(cfg, p.side, p.entry));
            var partial := !full && Past(p, mark, PartialPrice(cfg, p.side, p.entry));
            var closes := full || (!partial && (AtStop(p, mark) || AtTarget(p, mark)));
            var r := Lookup(CheckStops(cfg, st, prices).acct.positions, p.symbol);
            if mark != 0.0 && closes && p.quantity <= MAX_QUANTITY then r == None
            else if mark != 0.0 && partial && p.quantity * cfg.partialRatio <= MAX_QUANTITY then
              r.Some? && ShrunkBy(p, r.value, 1.0 - cfg.partialRatio)
            else r == Some(p)
  {
    hide Good, Lookup, OnePerSymbol, CloseAll, Triggers, LiquidationPrice, PartialPrice, ShrunkBy, TriggerOf, Remainder;
    GoodOnePerSymbol(initial, st);
    LookupIn(st.acct.positions, p.symbol);
    var cut := p.quantity * cfg.partialRatio;
    ShareShrinks(p, cfg.partialRatio, cut);
    TriggerDecides(cfg, p, prices(p.symbol));
    RemainderOf(p, p.quantity, prices(p.symbol));
    RemainderOf(p, cut, prices(p.symbol));
    OwnClose(cfg, st, st.acct.positions, prices, p, initial);
  }

  /** Which close a position asks for at a mark, and of how much. */
  lemma TriggerDecides(cfg: Config, p: Position, mark: real)
    ensures var full := Past(p, mark, LiquidationPrice(cfg, p.side, p.entry));
            var partial := !full && Past(p, mark, PartialPrice(cfg, p.side, p.entry));
            var t := TriggerOf(cfg, p, mark);
            && (t.Some? <==> full || partial || AtStop(p, mark) || AtTarget(p, mark))
            && (t.Some? ==>
                  && t.value.symbol == p.symbol && t.value.side == p.side
                  && t.value.quantity == (if partial then p.quantity * cfg.partialRatio else p.quantity)
                  && t.value.reason == (if full then Liquidation else if partial then PartialLiquidation
                                        else if AtStop(p, mark) then StopLoss else TakeProfit))
  {
    hide LiquidationPrice, PartialPrice;
  }

  lemma RemainderOf(p: Position, quantity: real, mark: real)
    requires 0.0 < quantity <= p.quantity
    ensures var r := Remainder(p, quantity, mark);
            if mark == 0.0 || quantity > MAX_QUANTITY then r == Some(p)
            else if quantity == p.quantity then r == None
            else r == Some(p.(quantity := p.quantity - quantity,
                              margin := p.margin - ShareOf(p.margin, quantity, p.quantity)))
  {
  }

  /** Nothing to close: every mark is outside both levels and short of stop and target. */
  lemma NothingToClose(cfg: Config, st: State, prices: Symbol -> real)
    requires forall p :: p in st.acct.positions ==>
               var mark := prices(p.symbol);
               && !Past(p, mark, LiquidationPrice(cfg, p.side, p.entry)) && !AtStop(p, mark)
               && !Past(p, mark, PartialPrice(cfg, p.side, p.entry)) && !AtTarget(p, mark)
    ensures CheckStops(cfg, st, prices) == st
  {
    hide LiquidationPrice, PartialPrice;
    NoTriggers(cfg, st.acct.positions, prices);
  }

  lemma {:induction false} NoTriggers(cfg: Config, ps: seq<Position>, prices: Symbol -> real)
    requires forall p :: p in ps ==>
               var mark := prices(p.symbol);
               && !Past(p, mark, LiquidationPrice(cfg, p.side, p.entry)) && !AtStop(p, mark)
               && !Past(p, mark, PartialPrice(cfg, p.side, p.entry)) && !AtTarget(p, mark)
    ensures Triggers(cfg, ps, prices) == []
  {
    hide LiquidationPrice, PartialPrice;
    if ps != [] {
      assert ps[0] in ps;
      NoTriggers(cfg, ps[1..], prices);
    }
  }

  lemma ShareShrinks(p: Position, ratio: real, closed: real)
    requires 0.0 < ratio < 1.0 && closed == p.quantity * ratio
    ensures 0.0 < closed < p.quantity
    ensures ShrunkBy(p, p.(quantity := p.quantity - closed, margin := p.margin - ShareOf(p.margin, closed, p.quantity)),
                     1.0 - ratio)
  {
    ShareInside(p.quantity, ratio, 1.0 - ratio);
    assert closed / p.quantity == ratio;
  }

  lemma ShareInside(q: real, x: real, y: real)
    requires q > 0.0 && x > 0.0 && y > 0.0 && x + y == 1.0
    ensures 0.0 < q * x < q
  {
  }

  // ---------------------------------------------------------------- between the checks

  /** None of the postings from `n` on is a trade in the symbol. */
  predicate NoTradeFrom(es: seq<Entry>, n: nat, s: Symbol)
  {
    forall k :: n <= k < |es| && es[k].Traded? ==> es[k].fill.symbol != s
  }

  lemma {:induction false} ReplayedOnePerSymbol(initial: real, es: seq<Entry>)
    ensures OnePerSymbol(Replayed(initial, es).positions)
  {
    hide Post, OnePerSymbol;
    if es == [] {
      NoPositions(initial);
    } else {
      ReplayedOnePerSymbol(initial, es[..|es| - 1]);
      PostOnePerSymbol(Replayed(initial, es[..|es| - 1]), es[|es| - 1]);
    }
  }

  lemma NoPositions(initial: real)
    ensures OnePerSymbol(Opened(initial).positions)
  {
  }

  lemma PostFrame(a: Account, e: Entry, s: Symbol)
    requires OnePerSymbol(a.positions) && (e.Traded? ==> e.fill.symbol != s)
    ensures Lookup(Post(a, e).positions, s) == Lookup(a.positions, s)
  {
    hide UpdatePosition, Lookup, OnePerSymbol;
    if e.Traded? { UpdateFrame(Charged(a, e.fill), e.fill, s); }
  }

  lemma {:induction false} ReplayFrame(initial: real, es: seq<Entry>, n: nat, s: Symbol)
    requires n <= |es| && NoTradeFrom(es, n, s)
    ensures Lookup(Replayed(initial, es).positions, s) == Lookup(Replayed(initial, es[..n]).positions, s)
    decreases |es|
  {
    hide Post, OnePerSymbol, Lookup;
    if n == |es| {
      assert es[..n] == es;
    } else {
      var before := es[..|es| - 1];
      assert before[..n] == es[..n];
      ReplayFrame(initial, before, n, s);
      ReplayedOnePerSymbol(initial, before);
      PostFrame(Replayed(initial, before), es[|es| - 1], s);
    }
  }

  /** Without a trade in the symbol its position stays as it is, whatever else happens. */
  lemma UntradedFrame(initial: real, st: State, r: State, s: Symbol)
    requires Good(initial, st) && Good(initial, r) && st.acct.journal <= r.acct.journal
    requires NoTradeFrom(r.acct.journal, |st.acct.journal|, s)
    ensures Lookup(r.acct.positions, s) == Lookup(st.acct.positions, s)
  {
    hide Sound, Matched, Lookup, Replayed;
    ReplayFrame(initial, r.acct.journal, |st.acct.journal|, s);
    assert r.acct.journal[..|st.acct.journal|] == st.acct.journal;
  }

  // ---------------------------------------------------------------- journals only grow

  predicate Grows(a: Account, b: Account) { a.journal <= b.journal }

  lemma PostGrows(a: Account, e: Entry)
    ensures Grows(a, Post(a, e)) && Post(a, e).journal == a.journal + [e]
  {
    if e.Traded? { FillLeaves(Charged(a, e.fill), e.fill); }
  }

  lemma FillNowGrows(cfg: Config, st: State, req: Request, o: Order, price: real, mid: real, s: Symbol)
    ensures var a := FillNow(cfg, st, req, o, price, mid).acct;
            Grows(st.acct, a) && (o.symbol != s ==> NoTradeFrom(a.journal, |st.acct.journal|, s))
  {
    hide Post, Enter, RoundPrice, Averaged, Round4, MarginCovers, SizeAllowed, FeeOf, Notional, Lever;
    PostGrows(st.acct, Traded(ImmediateFill(cfg, st.desk.next, req, o, price)));
  }

  lemma SubmitGrows(cfg: Config, st: State, req: Request, mid: real, depth: bool, s: Symbol)
    ensures var a := Submit(cfg, st, req, mid, depth).acct;
            Grows(st.acct, a) && (req.symbol != s ==> NoTradeFrom(a.journal, |st.acct.journal|, s))
  {
    hide FillNow, Enter, MarketPrice, Marketable, Registered, Unresolved;
    if Refuses(req).None? {
      var o := NewOrder(req);
      FillNowGrows(cfg, st, req, o, MarketPrice(cfg, mid, o.side, o.quantity), mid, s);
      if o.terms.AtLimit? { FillNowGrows(cfg, st, req, o, o.terms.price, mid, s); }
    }
  }

  lemma ExecuteGrows(cfg: Config, st: State, id: nat, t: Terms, price: real)
    requires id in st.desk.orders
    ensures Grows(st.acct, Execute(cfg, st, id, t, price).acct)
  {
    hide Post, FillResting, RejectResting, Retune, RoundPrice, Round4;
    hide MarginCovers, SizeAllowed, FeeOf, Notional, Lever;
    var o := st.desk.orders[id];
    PostGrows(st.acct, Traded(RestingFill(cfg, id, o, o.quantity, price)));
  }

  lemma SliceGrows(cfg: Config, st: State, id: nat, price: real)
    requires id in st.desk.orders && st.desk.orders[id].terms.Iceberg? && st.desk.orders[id].terms.hidden > 0.0
    ensures Grows(st.acct, Slice(cfg, st, id, price).acct)
  {
    hide Post, FillResting, Retune, RoundPrice, Round4, MarginCovers, SizeAllowed, FeeOf, Notional, Lever;
    var o := st.desk.orders[id];
    PostGrows(st.acct, Traded(RestingFill(cfg, id, o, Min(o.terms.visible, o.terms.hidden), price)));
  }

  lemma TickGrows(cfg: Config, st: State, id: nat, prices: Symbol -> real, now: real)
    ensures Grows(st.acct, Tick(cfg, st, id, prices, now).acct)
  {
    hide Execute, Slice, Retune, CancelResting, Marketable, StopReached, Advance, Slipped;
    if IsPending(st.desk, id) {
      var o := st.desk.orders[id];
      var price := prices(o.symbol);
      match o.terms
      case Immediate =>
      case AtLimit(limit, _) => ExecuteGrows(cfg, st, id, o.terms, limit);
      case StopLimit(stop, limit, triggered) =>
        ExecuteGrows(cfg, st, id, o.terms.(triggered := triggered || StopReached(o.side, price, stop)), limit);
      case Trailing(_, _, _, _, _, _) =>
        if price != 0.0 {
          ExecuteGrows(cfg, st, id, Advance(o.terms, o.side, price), Slipped(cfg, o.side, price));
        }
      case Iceberg(floor, _, hidden, _) =>
        if hidden > 0.0 {
          SliceGrows(cfg, st, id, price);
          if floor.Some? { SliceGrows(cfg, st, id, floor.value); }
        }
    }
  }

  lemma {:induction false} SweepGrows(cfg: Config, st: State, ids: seq<nat>, prices: Symbol -> real, now: real)
    ensures Grows(st.acct, Sweep(cfg, st, ids, prices, now).acct)
    decreases |ids|
  {
    hide Tick;
    if ids != [] {
      TickGrows(cfg, st, ids[0], prices, now);
      SweepGrows(cfg, Tick(cfg, st, ids[0], prices, now), ids[1..], prices, now);
    }
  }

  lemma {:induction false} CloseAllGrows(cfg: Config, st: State, ts: seq<Trigger>, prices: Symbol -> real)
    ensures Grows(st.acct, CloseAll(cfg, st, ts, prices).acct)
    decreases |ts|
  {
    hide Submit, Post;
    if ts != [] {
      var t := ts[0];
      var closed := Submit(cfg, st, CloseRequest(t), prices(t.symbol), true).acct;
      SubmitGrows(cfg, st, CloseRequest(t), prices(t.symbol), true, t.symbol);
      PostGrows(closed, Covered(-closed.balance));
      CloseAllGrows(cfg, CloseTriggered(cfg, st, t, prices(t.symbol)), ts[1..], prices);
    }
  }

  lemma {:induction false} FundingGrows(a: Account, ps: seq<Position>, prices: Symbol -> real, rate: real, s: Symbol)
    ensures var b := Accounts.ChargeFunding(a, ps, prices, rate); Grows(a, b) && NoTradeFrom(b.journal, |a.journal|, s)
    decreases |ps|
  {
    hide Post, FundingPayment;
    if ps != [] {
      var e := Funded(FundingPayment(ps[0].side, ps[0].quantity, prices(ps[0].symbol), rate));
      PostGrows(a, e);
      FundingGrows(Post(a, e), ps[1..], prices, rate, s);
    }
  }

  lemma StepGrows(cfg: Config, st: State, ev: Event)
    ensures Grows(st.acct, Step(cfg, st, ev).acct)
  {
    hide Submit, Sweep, CloseAll, Triggers, CancelAll, Cancel, Accounts.ChargeFunding;
    match ev
    case Submission(req, mid, depth) => SubmitGrows(cfg, st, req, mid, depth, req.symbol);
    case AdvancedCheck(prices, now) =>
      var a := Sweep(cfg, st, st.desk.books.limits, prices, now);
      var b := Sweep(cfg, a, a.desk.books.stops, prices, now);
      var c := Sweep(cfg, b, b.desk.books.trails, prices, now);
      SweepGrows(cfg, st, st.desk.books.limits, prices, now);
      SweepGrows(cfg, a, a.desk.books.stops, prices, now);
      SweepGrows(cfg, b, b.desk.books.trails, prices, now);
      SweepGrows(cfg, c, c.desk.books.icebergs, prices, now);
    case StopCheck(prices) => CloseAllGrows(cfg, st, Triggers(cfg, st.acct.positions, prices), prices);
    case FundingCharge(prices, rate) => FundingGrows(st.acct, st.acct.positions, prices, rate, 0);
    case CancelOrder(_) =>
    case CancelOrders(_) =>
  }

  // ---------------------------------------------------------------- the ladder

  /** The event trades nothing in the symbol. */
  predicate Spares(cfg: Config, st: State, ev: Event, s: Symbol)
  {
    NoTradeFrom(Step(cfg, st, ev).acct.journal, |st.acct.journal|, s)
  }

  /** Funding, cancels and submissions in other symbols never do. */
  lemma OtherEventsSpare(cfg: Config, st: State, ev: Event, s: Symbol)
    requires ev.FundingCharge? || ev.CancelOrder? || ev.CancelOrders? || (ev.Submission? && ev.req.symbol != s)
    ensures Spares(cfg, st, ev, s)
  {
    hide Submit, Cancel, CancelAll, Accounts.ChargeFunding;
    if ev.FundingCharge? { FundingGrows(st.acct, st.acct.positions, ev.prices, ev.rate, s); }
    if ev.Submission? { SubmitGrows(cfg, st, ev.req, ev.mid, ev.depthCovers, s); }
  }

  /** A check of the stops at a price in the partial band of the position. */
  predicate Hits(cfg: Config, p: Position, ev: Event)
  {
    ev.StopCheck? && ev.prices(p.symbol) != 0.0 && InBand(cfg, p, ev.prices(p.symbol))
  }

  function HitCount(cfg: Config, p: Position, evs: seq<Event>): nat
  {
    if evs == [] then 0 else (if Hits(cfg, p, evs[0]) then 1 else 0) + HitCount(cfg, p, evs[1..])
  }

  /** Every event of the run either checks the stops in the band or trades nothing in the symbol. */
  ghost predicate OnlyHits(cfg: Config, st: State, p: Position, evs: seq<Event>)
    decreases |evs|
  {
    evs == [] || ((Hits(cfg, p, evs[0]) || Spares(cfg, st, evs[0], p.symbol)) &&
                  OnlyHits(cfg, Step(cfg, st, evs[0]), p, evs[1..]))
  }

  /** `n` checks in the partial band, each at a price of its own, leave
      `quantity * (1 - ratio)^n` of a position, at an unchanged entry and an unchanged margin per
      unit, whatever the other positions do and whatever happens in between short of a trade in
      the symbol. */
  lemma {:induction false} BandLadder(cfg: Config, initial: real, st: State, evs: seq<Event>, p: Position)
    requires Good(initial, st) && Lookup(st.acct.positions, p.symbol) == Some(p)
    requires 0.0 < cfg.partialRatio < 1.0 && p.quantity * cfg.partialRatio <= MAX_QUANTITY
    requires OnlyHits(cfg, st, p, evs)
    ensures var r := Lookup(Run(cfg, st, evs).acct.positions, p.symbol);
            r.Some? && ShrunkBy(p, r.value, Pow(1.0 - cfg.partialRatio, HitCount(cfg, p, evs)))
  {
    hide Good, Lookup, OnlyHits, Run, HitCount;
    NotShrunk(p);
    LadderFrom(cfg, initial, st, evs, p, p, 0);
  }

  lemma {:induction false} LadderFrom(cfg: Config, initial: real, st: State, evs: seq<Event>, p: Position, q: Position,
                                      n: nat)
    requires Good(initial, st) && Lookup(st.acct.positions, p.symbol) == Some(q)
    requires 0.0 < cfg.partialRatio < 1.0 && q.quantity * cfg.partialRatio <= MAX_QUANTITY
    requires OnlyHits(cfg, st, p, evs) && ShrunkBy(p, q, Pow(1.0 - cfg.partialRatio, n))
    ensures var r := Lookup(Run(cfg, st, evs).acct.positions, p.symbol);
            r.Some? && ShrunkBy(p, r.value, Pow(1.0 - cfg.partialRatio, n + HitCount(cfg, p, evs)))
    decreases |evs|
  {
    hide Good, Keeps, Lookup, Step, Hits, Spares, ShrunkBy, Pow;
    if evs != [] {
      var m := Step(cfg, st, evs[0]);
      StepKeeps(cfg, initial, st, evs[0]);
      KeepsGood(initial, st, m);
      if Hits(cfg, p, evs[0]) {
        var x := 1.0 - cfg.partialRatio;
        HitShrinks(cfg, initial, st, evs[0], p, q, Pow(x, n));
        var r := Lookup(m.acct.positions, p.symbol).value;
        SmallerClose(cfg, q, r);
        ShrinkStep(p, q, r, x, n);
        LadderFrom(cfg, initial, m, evs[1..], p, r, n + 1);
      } else {
        SparesFrame(cfg, initial, st, evs[0], p.symbol);
        LadderFrom(cfg, initial, m, evs[1..], p, q, n);
      }
    }
  }

  lemma SparesFrame(cfg: Config, initial: real, st: State, ev: Event, s: Symbol)
    requires Good(initial, st) && Good(initial, Step(cfg, st, ev)) && Spares(cfg, st, ev, s)
    ensures Lookup(Step(cfg, st, ev).acct.positions, s) == Lookup(st.acct.positions, s)
  {
    hide Good, Lookup, Step;
    StepGrows(cfg, st, ev);
    UntradedFrame(initial, st, Step(cfg, st, ev), s);
  }

  lemma HitShrinks(cfg: Config, initial: real, st: State, ev: Event, p: Position, q: Position, factor: real)
    requires Good(initial, st) && Lookup(st.acct.positions, p.symbol) == Some(q) && ShrunkBy(p, q, factor)
    requires 0.0 < cfg.partialRatio < 1.0 && q.quantity * cfg.partialRatio <= MAX_QUANTITY && Hits(cfg, p, ev)
    ensures var r := Lookup(Step(cfg, st, ev).acct.positions, p.symbol);
            r.Some? && ShrunkBy(q, r.value, 1.0 - cfg.partialRatio)
  {
    hide Good, Lookup, CheckStops, LiquidationPrice, PartialPrice;
    CheckDecides(cfg, initial, st, ev.prices, q);
  }

  lemma ShrinkStep(p: Position, q: Position, r: Position, x: real, n: nat)
    requires ShrunkBy(p, q, Pow(x, n)) && ShrunkBy(q, r, x)
    ensures ShrunkBy(p, r, Pow(x, n + 1))
  {
    var y := Pow(x, n);
    assert Pow(x, n + 1) == x * y;
    assert p.quantity * y * x == p.quantity * (x * y);
    assert p.margin * y * x == p.margin * (x * y);
  }

  lemma SmallerClose(cfg: Config, p: Position, q: Position)
    requires 0.0 < cfg.partialRatio < 1.0 && ShrunkBy(p, q, 1.0 - cfg.partialRatio)
    requires p.quantity * cfg.partialRatio <= MAX_QUANTITY
    ensures q.quantity * cfg.partialRatio <= MAX_QUANTITY
  {
    ScaledBelow(p.quantity, cfg.partialRatio, q.quantity, MAX_QUANTITY);
  }

  lemma ScaledBelow(x: real, ratio: real, y: real, max: real)
    requires x > 0.0 && 0.0 < ratio < 1.0 && y == x * (1.0 - ratio) && x * ratio <= max
    ensures y * ratio <= max
  {
    var z := x * ratio;
    assert y * ratio == z - z * ratio;
    assert z > 0.0 && z * ratio > 0.0;
  }

  lemma LookupIn(ps: seq<Position>, s: Symbol)
    requires Lookup(ps, s).Some?
    ensures Lookup(ps, s).value in ps && Lookup(ps, s).value.symbol == s
  {
  }

  lemma NotShrunk(p: Position)
    ensures ShrunkBy(p, p, Pow(1.0, 0))
    ensures forall x :: ShrunkBy(p, p, Pow(x, 0))
  {
  }
}
