/** What becomes of an order at submission, and of one that expires. */
module OrderOutcomes {
  import opened Basics
  import opened Rounding
  import opened Accounts
  import opened Desk
  import opened Engine
  import opened Runs
  import opened Journal
  import opened PriceHistory

  // ---------------------------------------------------------------- at submission

  /** A priced limit order. */
  predicate PricedLimit(req: Request) { req.orderType == LimitOrder && req.price.Some? }

  /** Market orders, unpriced limits and anything immediate-or-cancel or fill-or-kill. */
  predicate NeverRests(req: Request)
  {
    req.tif == IOC || req.tif == FOK || req.orderType == MarketOrder || req.orderType == OcoOrder
    || (req.orderType == LimitOrder && req.price.None?)
  }

  /** What holds of the order `p` that a valid request leaves, and of the account. */
  predicate Fate(cfg: Config, st: State, r: State, req: Request, mid: real, p: Order)
  {
    && p.side == req.side && p.symbol == req.symbol && p.quantity == req.quantity && p.group == req.group
    && (p.status != Filled ==> r.acct == st.acct)
    && (NeverRests(req) ==> p.status != Pending)
    && (req.postOnly && p.status == Filled ==> req.price.None?)
    && (mid == 0.0 ==> p.status != Filled && p.status != Pending)
    && (p.status == Filled ==> p.filledQuantity == req.quantity)
    && (p.status == Filled && PricedLimit(req) ==>
          && Marketable(req.side, MarketPrice(cfg, mid, req.side, req.quantity), req.price.value)
          && p.filledPrice == RoundPrice(Averaged(req.price.value, req.side, req.quantity)))
    && (p.status == Pending && PricedLimit(req) ==>
          !Marketable(req.side, MarketPrice(cfg, mid, req.side, req.quantity), req.price.value))
  }

  /** Takers never rest, makers never take, a limit order that fills at once does so with the
      market through its limit, and the account moves only with a fill. */
  lemma SubmissionFate(cfg: Config, initial: real, st: State, req: Request, mid: real, depth: bool)
    requires Good(initial, st) && Refuses(req).None?
    ensures var r := Submit(cfg, st, req, mid, depth);
            st.desk.next in r.desk.orders && Fate(cfg, st, r, req, mid, r.desk.orders[st.desk.next])
  {
    hide Good, Enter, SlicesOk, MarketPrice, Marketable, Averaged, RoundPrice, Post, Unresolved, FillNow, Registered;
    var o := NewOrder(req);
    NewOrderSlices(req);
    RegisteredSlices(o, mid);
    StatusSlices(o, Rejected);
    StatusSlices(o, Cancelled);
    StoredAs(initial, st, o.(status := Rejected));
    StoredAs(initial, st, o.(status := Cancelled));
    if Unresolved(st.desk, o.group) {
      if o.terms.Immediate? {
        FillFate(cfg, initial, st, req, o, MarketPrice(cfg, mid, o.side, o.quantity), mid);
      } else if o.terms.AtLimit? {
        StoredAs(initial, st, o);
        FillFate(cfg, initial, st, req, o, o.terms.price, mid);
      } else {
        RegisteredKind(o, mid);
        StoredAs(initial, st, o.(terms := Registered(o.terms, o.side, mid)));
      }
    }
  }

  lemma RegisteredKind(o: Order, mid: real)
    ensures Registered(o.terms, o.side, mid).Immediate? <==> o.terms.Immediate?
  {
  }

  lemma StatusSlices(o: Order, s: Status)
    requires SlicesOk(o) && o.status == Pending && s != Filled
    ensures SlicesOk(o.(status := s))
  {
  }

  /** An immediate fill is rejected without touching the account, or complete at the averaged
      price. */
  lemma FillFate(cfg: Config, initial: real, st: State, req: Request, o: Order, price: real, mid: real)
    requires Good(initial, st) && Unresolved(st.desk, o.group) && o.status == Pending && !o.terms.Iceberg?
    ensures var r := FillNow(cfg, st, req, o, price, mid); var id := st.desk.next;
      id in r.desk.orders && var p := r.desk.orders[id];
      p.side == o.side && p.symbol == o.symbol && p.quantity == o.quantity && p.group == o.group &&
      ((p.status == Rejected && r.acct == st.acct) ||
       (p.status == Filled && p.filledQuantity == o.quantity &&
        p.filledPrice == RoundPrice(Averaged(price, o.side, o.quantity))))
  {
    hide Good, Enter, Averaged, RoundPrice, Round4, Post, Unresolved, MarginCovers, SizeAllowed, FeeOf;
    var f := ImmediateFill(cfg, st.desk.next, req, o, price);
    StoredAs(initial, st, o.(status := Rejected));
    StoredAs(initial, st,
             o.(status := Filled, filledPrice := f.price, filledQuantity := o.quantity, fee := Round4(f.fee)));
  }

  lemma StoredAs(initial: real, st: State, o: Order)
    requires Good(initial, st) && SlicesOk(o) && (o.status == Pending ==> !o.terms.Immediate?)
    requires o.status == Filled ==> ReportsAll(o)
    requires o.status == Pending || o.status == Filled ==> Unresolved(st.desk, o.group)
    ensures st.desk.next in Enter(st.desk, o).orders && Enter(st.desk, o).orders[st.desk.next] == o.(watched := true)
  {
    hide SlicesOk, Enter, Reconciled, Matched;
    EnterSound(st.desk, o);
    assert st.desk.next in Enter(st.desk, o).orders.Keys;
  }

  /** What a request must be to become an order at all. */
  predicate Acceptable(req: Request)
  {
    && 0.0 < req.quantity <= 1000000000.0
    && (req.orderType == StopLimitOrder ==> req.stopPrice.Some? && req.limitPrice.Some?)
    && (req.orderType == TrailingStopOrder ==> req.trailAmount.Some? && req.trailAmount.value > 0.0)
    && (req.orderType == IcebergOrder ==> req.visible.Some? && 0.0 < req.visible.value < req.quantity)
    && req.tif != UnknownTif && (req.expireTs.Some? <==> req.tif == GTD)
    && (req.orderType != LimitOrder ==> req.tif == GTC && !req.postOnly)
  }

  /** Any other is turned away: counted as rejected, never stored, the account untouched. */
  lemma TurnedAwayIff(cfg: Config, st: State, req: Request, mid: real, depth: bool)
    ensures Refuses(req).None? <==> Acceptable(req)
    ensures !Acceptable(req) ==>
              var r, c := Submit(cfg, st, req, mid, depth), st.desk.counts;
              && r.acct == st.acct && r.desk.orders == st.desk.orders && r.desk.books == st.desk.books
              && r.desk.next == st.desk.next + 1
              && r.desk.counts == c.(submitted := c.submitted + 1, rejected := c.rejected + 1)
  {
  }

  /** An order that rests waits for exactly what was requested; a trailing stop starts from the
      market on its own side. */
  lemma RestsAsRequested(cfg: Config, initial: real, st: State, req: Request, mid: real, depth: bool)
    requires Good(initial, st) && Acceptable(req)
    ensures var r, id := Submit(cfg, st, req, mid, depth), st.desk.next;
      IsPending(r.desk, id) ==>
        r.desk.orders[id].terms ==
          match req.orderType
          case StopLimitOrder => StopLimit(req.stopPrice.value, req.limitPrice.value, false)
          case TrailingStopOrder =>
            Trailing(req.trailAmount.value, req.trailPercentage, 0.0, if req.side == Sell then mid else 0.0,
                     if req.side == Sell then 0.0 else mid, false)
          case IcebergOrder => Iceberg(req.price, req.visible.value, req.quantity - req.visible.value, 0)
          case _ => if req.price.Some? then AtLimit(req.price.value, req.expireTs) else Immediate
  {
    TurnedAwayIff(cfg, st, req, mid, depth);
    SubmissionFate(cfg, initial, st, req, mid, depth);
    hide Good, Fate, Enter, Submit;
    var p := SubmitEnters(cfg, st, req, mid, depth);
    if IsPending(Enter(st.desk, p), st.desk.next) { EnteredAs(initial, st, p); }
  }

  lemma EnteredAs(initial: real, st: State, p: Order)
    requires Good(initial, st) && st.desk.next in Enter(st.desk, p).orders
    requires Enter(st.desk, p).orders[st.desk.next].status == Pending
    ensures Enter(st.desk, p).orders[st.desk.next] == p.(watched := true)
  {
  }

  /** ... at the end of the book of its kind. */
  lemma JoinsTheQueue(cfg: Config, initial: real, st: State, req: Request, mid: real, depth: bool)
    requires Good(initial, st) && Acceptable(req)
    requires IsPending(Submit(cfg, st, req, mid, depth).desk, st.desk.next)
    ensures var b, id := st.desk.books, st.desk.next;
            Submit(cfg, st, req, mid, depth).desk.books ==
            if req.orderType == StopLimitOrder then b.(stops := b.stops + [id])
            else if req.orderType == TrailingStopOrder then b.(trails := b.trails + [id])
            else if req.orderType == IcebergOrder then b.(icebergs := b.icebergs + [id])
            else b.(limits := b.limits + [id])
  {
    TurnedAwayIff(cfg, st, req, mid, depth);
    SubmissionFate(cfg, initial, st, req, mid, depth);
    RestsAsRequested(cfg, initial, st, req, mid, depth);
    hide Good, Fate, Submit, Resolve;
    var p := SubmitEnters(cfg, st, req, mid, depth);
    EnteredAs(initial, st, p);
  }

  // ---------------------------------------------------------------- who is served first

  /** What a pass does first stays done, if it ended the order. */
  lemma FirstOfPass(cfg: Config, initial: real, st: State, ids: seq<nat>, prices: Symbol -> real, now: real)
    requires Good(initial, st) && ids != [] && ids[0] in st.desk.orders
    requires var m := Tick(cfg, st, ids[0], prices, now).desk; ids[0] in m.orders && m.orders[ids[0]].status != Pending
    ensures var r := Sweep(cfg, st, ids, prices, now);
            && Good(initial, r) && ids[0] in r.desk.orders
            && r.desk.orders[ids[0]] == Tick(cfg, st, ids[0], prices, now).desk.orders[ids[0]]
  {
    hide Good, Keeps, Tick;
    var m := Tick(cfg, st, ids[0], prices, now);
    TickKeeps(cfg, initial, st, ids[0], prices, now);
    KeepsGood(initial, st, m);
    SweepKeeps(cfg, initial, m, ids[1..], prices, now);
    KeepsGood(initial, m, Sweep(cfg, m, ids[1..], prices, now));
    KeepsIcebergs(initial, m, Sweep(cfg, m, ids[1..], prices, now), ids[0]);
  }

  lemma PassLeaves(cfg: Config, initial: real, st: State, ids: seq<nat>, prices: Symbol -> real, now: real, id: nat)
    requires Good(initial, st) && id in st.desk.orders && st.desk.orders[id].status != Pending
    ensures var r := Sweep(cfg, st, ids, prices, now);
            Good(initial, r) && id in r.desk.orders && r.desk.orders[id] == st.desk.orders[id]
  {
    hide Good, Keeps, Sweep;
    SweepKeeps(cfg, initial, st, ids, prices, now);
    KeepsGood(initial, st, Sweep(cfg, st, ids, prices, now));
    KeepsIcebergs(initial, st, Sweep(cfg, st, ids, prices, now), id);
  }

  /** First in, first served, limits before stop-limits before trailing stops before icebergs: if
      the first resting order in that line ends, it ends as if it were alone, on the account and
      in the group as they were before the check. */
  lemma FirstInLine(cfg: Config, initial: real, st: State, prices: Symbol -> real, now: real, id: nat)
    requires Good(initial, st)
    requires var b := st.desk.books; var line := b.limits + b.stops + b.trails + b.icebergs; line != [] && line[0] == id
    requires var m := Tick(cfg, st, id, prices, now).desk; id in m.orders && m.orders[id].status != Pending
    ensures var r := CheckAdvanced(cfg, st, prices, now);
            id in r.desk.orders && r.desk.orders[id] == Tick(cfg, st, id, prices, now).desk.orders[id]
  {
    hide Good, Sweep, Tick;
    LineResting(initial, st, id);
    NoPass(cfg, st, prices, now);
    var books := st.desk.books;
    var a := Sweep(cfg, st, books.limits, prices, now);
    if books.limits != [] { FirstOfPass(cfg, initial, st, books.limits, prices, now); }
    var b := Sweep(cfg, a, a.desk.books.stops, prices, now);
    if books.limits != [] { PassLeaves(cfg, initial, a, a.desk.books.stops, prices, now, id); }
    else if books.stops != [] { FirstOfPass(cfg, initial, st, books.stops, prices, now); }
    var c := Sweep(cfg, b, b.desk.books.trails, prices, now);
    if books.limits + books.stops != [] { PassLeaves(cfg, initial, b, b.desk.books.trails, prices, now, id); }
    else if books.trails != [] { FirstOfPass(cfg, initial, st, books.trails, prices, now); }
    if books.limits + books.stops + books.trails != [] {
      PassLeaves(cfg, initial, c, c.desk.books.icebergs, prices, now, id);
    } else {
      FirstOfPass(cfg, initial, st, books.icebergs, prices, now);
    }
  }

  lemma NoPass(cfg: Config, st: State, prices: Symbol -> real, now: real)
    ensures Sweep(cfg, st, [], prices, now) == st
  {
  }

  lemma LineResting(initial: real, st: State, id: nat)
    requires Good(initial, st) && id in Resting(st.desk.books)
    ensures id in st.desk.orders
  {
    assert IsPending(st.desk, id);
  }

  // ---------------------------------------------------------------- cancels

  predicate Chosen(o: Order, symbol: Option<Symbol>)
  {
    o.status == Pending && (symbol.None? || o.symbol == symbol.value)
  }

  lemma {:induction false} CancelAllOn(d: Desk, ids: seq<nat>, symbol: Option<Symbol>)
    ensures var r := CancelAll(d, ids, symbol);
            && r.orders.Keys == d.orders.Keys
            && forall id :: id in d.orders ==>
                 r.orders[id] == if id in ids && Chosen(d.orders[id], symbol) then d.orders[id].(status := Cancelled)
                                 else d.orders[id]
    decreases |ids|
  {
    hide Drop;
    if ids != [] {
      var chosen := ids[0] in d.orders && (symbol.None? || d.orders[ids[0]].symbol == symbol.value);
      CancelAllOn(if chosen then Cancel(d, ids[0]) else d, ids[1..], symbol);
      assert ids == [ids[0]] + ids[1..];
    }
  }

  /** Cancelling all, or all of a symbol, cancels exactly the resting orders meant and changes no
      other; the account is not touched. */
  lemma CancelledExactly(cfg: Config, initial: real, st: State, symbol: Option<Symbol>)
    requires Good(initial, st)
    ensures var r := Step(cfg, st, CancelOrders(symbol));
            && r.acct == st.acct && r.desk.orders.Keys == st.desk.orders.Keys
            && forall id :: id in st.desk.orders ==>
                 var o := st.desk.orders[id];
                 r.desk.orders[id] == if Chosen(o, symbol) then o.(status := Cancelled) else o
  {
    hide CancelAll, Reconciled, Matched;
    CancelAllOn(st.desk, Resting(st.desk.books), symbol);
    forall id | IsPending(st.desk, id) ensures id in Resting(st.desk.books) {}
  }

  // ---------------------------------------------------------------- expiry

  predicate Expired(o: Order, now: real)
  {
    o.status == Pending && o.terms.AtLimit? && o.terms.expireTs.Some? && now >= o.terms.expireTs.value
  }

  lemma {:induction false} SweepExpires(cfg: Config, initial: real, st: State, ids: seq<nat>, prices: Symbol -> real,
                                        now: real, id: nat)
    requires Good(initial, st) && id in st.desk.orders && id in ids && Expired(st.desk.orders[id], now)
    ensures var r := Sweep(cfg, st, ids, prices, now);
            Good(initial, r) && id in r.desk.orders && r.desk.orders[id].status == Cancelled
    decreases |ids|
  {
    hide Good, Keeps, Tick, SameOrder;
    var m := Tick(cfg, st, ids[0], prices, now);
    TickKeeps(cfg, initial, st, ids[0], prices, now);
    KeepsGood(initial, st, m);
    KeepsIcebergs(initial, st, m, id);
    SweepKeeps(cfg, initial, m, ids[1..], prices, now);
    KeepsGood(initial, m, Sweep(cfg, m, ids[1..], prices, now));
    KeepsIcebergs(initial, m, Sweep(cfg, m, ids[1..], prices, now), id);
    if ids[0] == id {
      TickExpires(cfg, st, id, prices, now);
    } else {
      if ids[0] in st.desk.orders { TickOnlyCancels(cfg, initial, st, ids[0], prices, now); }
      else { TickAbsent(cfg, st, ids[0], prices, now); }
      assert ids == [ids[0]] + ids[1..];
      if m.desk.orders[id].status == Pending { SweepExpires(cfg, initial, m, ids[1..], prices, now, id); }
    }
  }

  lemma TickExpires(cfg: Config, st: State, id: nat, prices: Symbol -> real, now: real)
    requires id in st.desk.orders && Expired(st.desk.orders[id], now)
    ensures var r := Tick(cfg, st, id, prices, now).desk; id in r.orders && r.orders[id].status == Cancelled
  {
  }

  /** An order past its expiry is cancelled by the next check, whatever the market does: it
      cannot fill. */
  lemma ExpiredIsCancelled(cfg: Config, initial: real, st: State, prices: Symbol -> real, now: real, id: nat)
    requires Good(initial, st) && IsPending(st.desk, id) && Expired(st.desk.orders[id], now)
    ensures var r := CheckAdvanced(cfg, st, prices, now);
            id in r.desk.orders && r.desk.orders[id].status == Cancelled
  {
    hide Good, Keeps, Sweep, SameOrder;
    HomeBook(initial, st, id);
    SweepExpires(cfg, initial, st, st.desk.books.limits, prices, now, id);
    var a := Sweep(cfg, st, st.desk.books.limits, prices, now);
    SweepKeeps(cfg, initial, a, a.desk.books.stops, prices, now);
    var b := Sweep(cfg, a, a.desk.books.stops, prices, now);
    KeepsGood(initial, a, b);
    KeepsIcebergs(initial, a, b, id);
    SweepKeeps(cfg, initial, b, b.desk.books.trails, prices, now);
    var c := Sweep(cfg, b, b.desk.books.trails, prices, now);
    KeepsGood(initial, b, c);
    KeepsIcebergs(initial, b, c, id);
    SweepKeeps(cfg, initial, c, c.desk.books.icebergs, prices, now);
    KeepsIcebergs(initial, c, Sweep(cfg, c, c.desk.books.icebergs, prices, now), id);
  }

  /** A good-till-date order that comes to rest cannot outlive its date: the first check from then
      on cancels it. */
  lemma GoodTillDate(cfg: Config, initial: real, st: State, req: Request, mid: real, depth: bool,
                     prices: Symbol -> real, now: real)
    requires Good(initial, st) && Acceptable(req) && req.tif == GTD && now >= req.expireTs.value
    requires IsPending(Submit(cfg, st, req, mid, depth).desk, st.desk.next)
    ensures var r, id := CheckAdvanced(cfg, Submit(cfg, st, req, mid, depth), prices, now), st.desk.next;
            id in r.desk.orders && r.desk.orders[id].status == Cancelled
  {
    hide Good, Keeps, CheckAdvanced;
    var m := Submit(cfg, st, req, mid, depth);
    RestsAsRequested(cfg, initial, st, req, mid, depth);
    SubmissionFate(cfg, initial, st, req, mid, depth);
    TurnedAwayIff(cfg, st, req, mid, depth);
    hide Submit;
    SubmitKeeps(cfg, initial, st, req, mid, depth);
    KeepsGood(initial, st, m);
    ExpiredIsCancelled(cfg, initial, m, prices, now, st.desk.next);
  }
}
