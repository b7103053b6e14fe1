/** What every run of the exchange keeps: reconciled money, sound books and groups, trades
    that agree with the orders, terminal orders left alone. */
module Runs {
  import opened Basics
  import opened Rounding
  import opened Accounts
  import opened Journal
  import opened Desk
  import opened Engine

  // ---------------------------------------------------------------- trades against orders

  function OfOrder(id: nat): Entry -> real
  {
    (e: Entry) => if e.Traded? && e.fill.order == id then e.fill.quantity else 0.0
  }

  /** What an order has traded according to its own record.  An iceberg never trades its
      visible part, although once filled it reports the whole quantity. */
  function Executed(d: Desk, id: nat): real
  {
    if id !in d.orders then 0.0
    else
      var o := d.orders[id];
      if o.terms.Iceberg? then o.quantity - o.terms.visible - o.terms.hidden
      else if o.status == Filled then o.quantity else 0.0
  }

  /** The journal and the orders tell the same story, order by order. */
  ghost predicate Matched(st: State)
  {
    forall id :: Sum(st.acct.journal, OfOrder(id)) == Executed(st.desk, id)
  }

  ghost predicate Good(initial: real, st: State)
  {
    Reconciled(initial, st.acct) && Sound(st.desk) && Matched(st)
  }

  lemma StartGood(initial: real)
    ensures Good(initial, Start(initial))
  {
    OpenedReconciled(initial);
  }

  /** A step that posts nothing and executes nothing. */
  lemma MatchedQuietly(st: State, d: Desk, id: nat)
    requires Matched(st) && OnlyCancels(st.desk, d, id) && Executed(d, id) == Executed(st.desk, id)
    ensures Matched(State(st.acct, d))
  {
  }

  /** A step that posts one trade for order `id` and executes as much of it. */
  lemma MatchedTrade(st: State, f: Fill, d: Desk)
    requires Matched(st) && OnlyCancels(st.desk, d, f.order)
    requires Executed(d, f.order) == Executed(st.desk, f.order) + f.quantity
    ensures Matched(State(Post(st.acct, Traded(f)), d))
  {
  }

  // ---------------------------------------------------------------- every step

  ghost predicate Keeps(initial: real, st: State, r: State)
  {
    Good(initial, r) && Persists(st.desk, r.desk)
  }

  lemma AdmitKeeps(initial: real, st: State, o: Order, s: Status)
    requires Good(initial, st) && o.status == Pending && SlicesOk(o) && s != Filled
    requires s == Pending ==> !o.terms.Immediate? && Unresolved(st.desk, o.group)
    requires o.terms.Iceberg? ==> o.quantity == o.terms.visible + o.terms.hidden
    ensures Keeps(initial, st, Admit(st, o, s))
  {
    hide Reconciled, Sound, Persists, Unresolved;
    EnterSound(st.desk, o.(status := s));
    MatchedQuietly(st, Enter(st.desk, o.(status := s)), st.desk.next);
  }

  lemma FillNowKeeps(cfg: Config, initial: real, st: State, req: Request, o: Order, price: real, mid: real)
    requires Good(initial, st) && o.status == Pending && !o.terms.Iceberg? && Unresolved(st.desk, o.group)
    ensures Keeps(initial, st, FillNow(cfg, st, req, o, price, mid))
  {
    hide Reconciled, Sound, Persists, Unresolved, Post, Enter, Matched, RoundPrice, Averaged;
    var notional := Notional(price, o.quantity);
    if !req.forceClose && !MarginCovers(cfg, st.acct.balance, notional) {
      AdmitKeeps(initial, st, o, Rejected);
    } else if !req.forceClose && !SizeAllowed(cfg, st.acct.balance, Notional(mid, o.quantity)) {
      AdmitKeeps(initial, st, o, Rejected);
    } else {
      var f := ImmediateFill(cfg, st.desk.next, req, o, price);
      var p := o.(status := Filled, filledPrice := f.price, filledQuantity := o.quantity, fee := Round4(f.fee));
      EnterSound(st.desk, p);
      PostReconciled(initial, st.acct, Traded(f));
      MatchedTrade(st, f, Enter(st.desk, p));
    }
  }

  lemma NewOrderSlices(req: Request)
    requires Refuses(req).None?
    ensures var o := NewOrder(req);
            && o.status == Pending && SlicesOk(o)
            && (o.terms.Iceberg? ==> o.quantity == o.terms.visible + o.terms.hidden)
  {
  }

  lemma SubmitKeeps(cfg: Config, initial: real, st: State, req: Request, mid: real, depth: bool)
    requires Good(initial, st)
    ensures Keeps(initial, st, Submit(cfg, st, req, mid, depth))
  {
    if Refuses(req).Some? {
      BounceSound(st.desk);
      assert Matched(Submit(cfg, st, req, mid, depth));
    } else {
      NewOrderSlices(req);
      RegisteredSlices(NewOrder(req), mid);
      hide Good, Keeps, Unresolved, NewOrder, Refuses, SlicesOk, Submit, Registered;
      NewOrderKeeps(cfg, initial, st, req, NewOrder(req), mid, depth);
    }
  }

  lemma NewOrderKeeps(cfg: Config, initial: real, st: State, req: Request, o: Order, mid: real, depth: bool)
    requires Refuses(req).None? && o == NewOrder(req) && o.status == Pending
    requires Good(initial, st)
    requires SlicesOk(o) && SlicesOk(o.(terms := Registered(o.terms, o.side, mid)))
    requires o.terms.Iceberg? ==> o.quantity == o.terms.visible + o.terms.hidden
    ensures Keeps(initial, st, Submit(cfg, st, req, mid, depth))
  {
    hide Good, Keeps, Admit, FillNow, Unresolved, MarketPrice, NewOrder, Refuses, SlicesOk;
    AdmitKeeps(initial, st, o, Rejected);
    AdmitKeeps(initial, st, o, Cancelled);
    if Unresolved(st.desk, o.group) {
      if o.terms.Immediate? {
        FillNowKeeps(cfg, initial, st, req, o, MarketPrice(cfg, mid, o.side, o.quantity), mid);
      } else if o.terms.AtLimit? {
        AdmitKeeps(initial, st, o, Pending);
        FillNowKeeps(cfg, initial, st, req, o, o.terms.price, mid);
      } else {
        AdmitKeeps(initial, st, o.(terms := Registered(o.terms, o.side, mid)), Pending);
      }
    }
  }

  lemma RegisteredSlices(o: Order, mid: real)
    requires SlicesOk(o)
    ensures SlicesOk(o.(terms := Registered(o.terms, o.side, mid)))
  {
  }

  /** A trade that completes a resting order. */
  lemma CompletionKeeps(initial: real, st: State, id: nat, t: Terms, f: Fill, price: real, fee: real)
    requires Good(initial, st) && IsPending(st.desk, id) && f.order == id
    requires var o := st.desk.orders[id];
             && SameKind(o.terms, t) && SlicesOk(o.(status := Filled, terms := t))
             && f.quantity == if t.Iceberg? then o.terms.hidden - t.hidden else o.quantity
    ensures Keeps(initial, st, State(Post(st.acct, Traded(f)),
                                     FillResting(st.desk, id, t, price, st.desk.orders[id].quantity, fee)))
  {
    hide Reconciled, Sound, Persists, Post, FillResting, Matched, SlicesOk;
    var q := st.desk.orders[id].quantity;
    FillRestingSound(st.desk, id, t, price, q, fee);
    PostReconciled(initial, st.acct, Traded(f));
    MatchedTrade(st, f, FillResting(st.desk, id, t, price, q, fee));
  }

  lemma RejectionKeeps(initial: real, st: State, id: nat, t: Terms)
    requires Good(initial, st) && IsPending(st.desk, id)
    requires SameKind(t, st.desk.orders[id].terms) && !t.Iceberg?
    ensures Keeps(initial, st, st.(desk := RejectResting(Retune(st.desk, id, t), id)))
  {
    hide Reconciled, Sound, Persists, Matched;
    var m := Retune(st.desk, id, t);
    RetuneSound(st.desk, id, t);
    RejectRestingSound(m, id);
    PersistsTrans(st.desk, m, RejectResting(m, id));
    MatchedQuietly(st, RejectResting(m, id), id);
  }

  lemma ExecuteKeeps(cfg: Config, initial: real, st: State, id: nat, t: Terms, price: real)
    requires Good(initial, st) && IsPending(st.desk, id)
    requires SameKind(t, st.desk.orders[id].terms) && !t.Iceberg?
    ensures Keeps(initial, st, Execute(cfg, st, id, t, price))
  {
    hide Good, Keeps, Post, FillResting, RejectResting, Retune, RoundPrice, Round4;
    var o := st.desk.orders[id];
    var f := RestingFill(cfg, id, o, o.quantity, price);
    RejectionKeeps(initial, st, id, t);
    CompletionKeeps(initial, st, id, t, f, f.price, f.fee);
  }

  /** One slice more: what is hidden shrinks by the slice, and the count tells how much. */
  lemma SliceCounts(o: Order, quantity: Qty)
    requires o.terms.Iceberg? && o.terms.hidden > 0.0 && o.status == Pending && SlicesOk(o)
    requires quantity == Min(o.terms.visible, o.terms.hidden)
    ensures var t := o.terms.(hidden := o.terms.hidden - quantity, slices := o.terms.slices + 1);
            && t.hidden >= 0.0
            && (t.hidden > 0.0 ==> SlicesOk(o.(terms := t)))
            && (t.hidden == 0.0 ==> SlicesOk(o.(terms := t, status := Filled)))
  {
  }

  lemma PendingSlices(initial: real, st: State, id: nat)
    requires Good(initial, st) && IsPending(st.desk, id)
    ensures SlicesOk(st.desk.orders[id])
  {
  }

  /** A trade for an iceberg that still has something hidden. */
  lemma ProgressKeeps(initial: real, st: State, id: nat, t: Terms, f: Fill)
    requires Good(initial, st) && IsPending(st.desk, id) && f.order == id
    requires var o := st.desk.orders[id];
             && t.Iceberg? && SameKind(t, o.terms) && SlicesOk(o.(terms := t))
             && f.quantity == o.terms.hidden - t.hidden
    ensures Keeps(initial, st, State(Post(st.acct, Traded(f)), Retune(st.desk, id, t)))
  {
    hide Reconciled, Sound, Persists, Post, Matched, SlicesOk;
    RetuneSound(st.desk, id, t);
    PostReconciled(initial, st.acct, Traded(f));
    MatchedTrade(st, f, Retune(st.desk, id, t));
  }

  lemma SliceRejectionKeeps(initial: real, st: State)
    requires Good(initial, st)
    ensures Keeps(initial, st, st.(desk := RejectSlice(st.desk)))
  {
    RejectSliceSound(st.desk);
    hide Reconciled, Sound, Persists;
  }

  lemma SliceKeeps(cfg: Config, initial: real, st: State, id: nat, price: real)
    requires Good(initial, st) && IsPending(st.desk, id)
    requires st.desk.orders[id].terms.Iceberg? && st.desk.orders[id].terms.hidden > 0.0
    ensures Keeps(initial, st, Slice(cfg, st, id, price))
  {
    hide Good, Keeps, Post, FillResting, Retune, RejectSlice, RoundPrice, Round4, SlicesOk;
    var o := st.desk.orders[id];
    var quantity: Qty := Min(o.terms.visible, o.terms.hidden);
    PendingSlices(initial, st, id);
    var t := o.terms.(hidden := o.terms.hidden - quantity, slices := o.terms.slices + 1);
    var f := RestingFill(cfg, id, o, quantity, price);
    SliceRejectionKeeps(initial, st);
    SliceCounts(o, quantity);
    if t.hidden <= 0.0 {
      CompletionKeeps(initial, st, id, t, f, o.filledPrice, o.fee);
    } else {
      ProgressKeeps(initial, st, id, t, f);
    }
  }

  lemma NothingKeeps(initial: real, st: State)
    requires Good(initial, st)
    ensures Keeps(initial, st, st)
  {
  }

  lemma RetuneKeeps(initial: real, st: State, id: nat, t: Terms)
    requires Good(initial, st) && IsPending(st.desk, id)
    requires SameKind(t, st.desk.orders[id].terms) && !t.Iceberg?
    ensures Keeps(initial, st, st.(desk := Retune(st.desk, id, t)))
  {
    hide Reconciled, Sound, Persists, Matched;
    RetuneSound(st.desk, id, t);
    MatchedQuietly(st, Retune(st.desk, id, t), id);
  }

  lemma CancelKeeps(initial: real, st: State, id: nat)
    requires Good(initial, st) && IsPending(st.desk, id)
    ensures Keeps(initial, st, st.(desk := CancelResting(st.desk, id)))
  {
    hide Reconciled, Sound, Persists, Matched;
    CancelRestingSound(st.desk, id);
    MatchedQuietly(st, CancelResting(st.desk, id), id);
  }

  lemma AdvanceSameKind(t: Terms, side: Side, price: real)
    requires t.Trailing? && price != 0.0
    ensures SameKind(Advance(t, side, price), t)
  {
  }

  lemma TickKeeps(cfg: Config, initial: real, st: State, id: nat, prices: Symbol -> real, now: real)
    requires Good(initial, st)
    ensures Keeps(initial, st, Tick(cfg, st, id, prices, now))
  {
    hide Good, Keeps, Execute, Slice, Advance, Retune, CancelResting, Slipped;
    NothingKeeps(initial, st);
    if IsPending(st.desk, id) {
      var o := st.desk.orders[id];
      var price := prices(o.symbol);
      match o.terms
      case Immediate =>
      case AtLimit(limit, expireTs) =>
        CancelKeeps(initial, st, id);
        ExecuteKeeps(cfg, initial, st, id, o.terms, limit);
      case StopLimit(stop, limit, triggered) =>
        var t := o.terms.(triggered := triggered || StopReached(o.side, price, stop));
        ExecuteKeeps(cfg, initial, st, id, t, limit);
        RetuneKeeps(initial, st, id, t);
      case Trailing(_, _, _, _, _, _) =>
        if price != 0.0 {
          var t := Advance(o.terms, o.side, price);
          AdvanceSameKind(o.terms, o.side, price);
          ExecuteKeeps(cfg, initial, st, id, t, Slipped(cfg, o.side, price));
          RetuneKeeps(initial, st, id, t);
        }
      case Iceberg(floor, _, hidden, _) =>
        if hidden > 0.0 {
          SliceKeeps(cfg, initial, st, id, price);
          if floor.Some? {
            SliceKeeps(cfg, initial, st, id, floor.value);
          }
        }
    }
  }

  lemma KeepsTrans(initial: real, a: State, b: State, c: State)
    requires Keeps(initial, a, b) && Keeps(initial, b, c)
    ensures Keeps(initial, a, c)
  {
    PersistsTrans(a.desk, b.desk, c.desk);
  }

  lemma {:induction false} SweepKeeps(cfg: Config, initial: real, st: State, ids: seq<nat>, prices: Symbol -> real,
                                      now: real)
    requires Good(initial, st)
    ensures Keeps(initial, st, Sweep(cfg, st, ids, prices, now))
    decreases |ids|
  {
    hide Tick, Reconciled, Sound, Matched, Persists;
    if ids == [] {
      NothingKeeps(initial, st);
    } else {
      var m := Tick(cfg, st, ids[0], prices, now);
      TickKeeps(cfg, initial, st, ids[0], prices, now);
      SweepKeeps(cfg, initial, m, ids[1..], prices, now);
      KeepsTrans(initial, st, m, Sweep(cfg, m, ids[1..], prices, now));
    }
  }

  lemma CheckAdvancedKeeps(cfg: Config, initial: real, st: State, prices: Symbol -> real, now: real)
    requires Good(initial, st)
    ensures Keeps(initial, st, CheckAdvanced(cfg, st, prices, now))
  {
    hide Sweep, Reconciled, Sound, Matched, Persists;
    var a := Sweep(cfg, st, st.desk.books.limits, prices, now);
    var b := Sweep(cfg, a, a.desk.books.stops, prices, now);
    var c := Sweep(cfg, b, b.desk.books.trails, prices, now);
    SweepKeeps(cfg, initial, st, st.desk.books.limits, prices, now);
    SweepKeeps(cfg, initial, a, a.desk.books.stops, prices, now);
    SweepKeeps(cfg, initial, b, b.desk.books.trails, prices, now);
    SweepKeeps(cfg, initial, c, c.desk.books.icebergs, prices, now);
    KeepsTrans(initial, st, a, b);
    KeepsTrans(initial, st, b, c);
    KeepsTrans(initial, st, c, CheckAdvanced(cfg, st, prices, now));
  }

  /** Postings that are not trades touch neither the orders nor their trades. */
  lemma NonTradeKeeps(initial: real, st: State, e: Entry)
    requires Good(initial, st) && !e.Traded?
    ensures Keeps(initial, st, st.(acct := Post(st.acct, e)))
  {
    hide Reconciled, Sound;
    PostReconciled(initial, st.acct, e);
    forall j ensures Sum(Post(st.acct, e).journal, OfOrder(j)) == Executed(st.desk, j) {
      SumOfAppend(st.acct.journal, e, OfOrder(j));
      assert Sum(st.acct.journal, OfOrder(j)) == Executed(st.desk, j);
    }
  }

  lemma CloseTriggeredKeeps(cfg: Config, initial: real, st: State, t: Trigger, price: real)
    requires Good(initial, st)
    ensures Keeps(initial, st, CloseTriggered(cfg, st, t, price))
  {
    hide Submit, Good, Keeps, Post;
    var closed := Submit(cfg, st, CloseRequest(t), price, true);
    SubmitKeeps(cfg, initial, st, CloseRequest(t), price, true);
    KeepsGood(initial, st, closed);
    NonTradeKeeps(initial, closed, Covered(-closed.acct.balance));
    KeepsTrans(initial, st, closed, closed.(acct := Post(closed.acct, Covered(-closed.acct.balance))));
  }

  lemma KeepsGood(initial: real, a: State, b: State)
    requires Keeps(initial, a, b)
    ensures Good(initial, b)
  {
  }

  lemma {:induction false} CloseAllKeeps(cfg: Config, initial: real, st: State, ts: seq<Trigger>,
                                         prices: Symbol -> real)
    requires Good(initial, st)
    ensures Keeps(initial, st, CloseAll(cfg, st, ts, prices))
    decreases |ts|
  {
    hide CloseTriggered, Reconciled, Sound, Matched, Persists;
    if ts == [] {
      NothingKeeps(initial, st);
    } else {
      var m := CloseTriggered(cfg, st, ts[0], prices(ts[0].symbol));
      CloseTriggeredKeeps(cfg, initial, st, ts[0], prices(ts[0].symbol));
      CloseAllKeeps(cfg, initial, m, ts[1..], prices);
      KeepsTrans(initial, st, m, CloseAll(cfg, m, ts[1..], prices));
    }
  }

  lemma {:induction false} FundingKeeps(initial: real, st: State, ps: seq<Position>, prices: Symbol -> real, rate: real)
    requires Good(initial, st)
    ensures Keeps(initial, st, st.(acct := ChargeFunding(st.acct, ps, prices, rate)))
    decreases |ps|
  {
    hide Post, Good, Keeps;
    if ps == [] {
      NothingKeeps(initial, st);
    } else {
      var e := Funded(FundingPayment(ps[0].side, ps[0].quantity, prices(ps[0].symbol), rate));
      var m := st.(acct := Post(st.acct, e));
      NonTradeKeeps(initial, st, e);
      KeepsGood(initial, st, m);
      FundingKeeps(initial, m, ps[1..], prices, rate);
      KeepsTrans(initial, st, m, st.(acct := ChargeFunding(st.acct, ps, prices, rate)));
    }
  }

  lemma {:induction false} CancelAllKeeps(initial: real, st: State, ids: seq<nat>, symbol: Option<Symbol>)
    requires Good(initial, st)
    ensures Keeps(initial, st, st.(desk := CancelAll(st.desk, ids, symbol)))
    decreases |ids|
  {
    hide Good, Keeps, CancelResting;
    NothingKeeps(initial, st);
    if ids != [] {
      var id := ids[0];
      var chosen := id in st.desk.orders && (symbol.None? || st.desk.orders[id].symbol == symbol.value);
      var m := if chosen then st.(desk := Cancel(st.desk, id)) else st;
      if chosen && IsPending(st.desk, id) {
        CancelKeeps(initial, st, id);
      }
      KeepsGood(initial, st, m);
      CancelAllKeeps(initial, m, ids[1..], symbol);
      KeepsTrans(initial, st, m, st.(desk := CancelAll(st.desk, ids, symbol)));
    }
  }

  lemma StepKeeps(cfg: Config, initial: real, st: State, ev: Event)
    requires Good(initial, st)
    ensures Keeps(initial, st, Step(cfg, st, ev))
  {
    hide Good, Keeps, Submit, CheckAdvanced, CheckStops, ChargeFunding, CancelAll, CancelResting;
    NothingKeeps(initial, st);
    match ev
    case Submission(req, mid, depth) => SubmitKeeps(cfg, initial, st, req, mid, depth);
    case AdvancedCheck(prices, now) => CheckAdvancedKeeps(cfg, initial, st, prices, now);
    case StopCheck(prices) => CheckStopsKeeps(cfg, initial, st, prices);
    case FundingCharge(prices, rate) => FundingKeeps(initial, st, st.acct.positions, prices, rate);
    case CancelOrder(id) => if IsPending(st.desk, id) { CancelKeeps(initial, st, id); }
    case CancelOrders(symbol) => CancelAllKeeps(initial, st, Resting(st.desk.books), symbol);
  }

  lemma CheckStopsKeeps(cfg: Config, initial: real, st: State, prices: Symbol -> real)
    requires Good(initial, st)
    ensures Keeps(initial, st, CheckStops(cfg, st, prices))
  {
    hide Good, Keeps, CloseAll, Triggers;
    CloseAllKeeps(cfg, initial, st, Triggers(cfg, st.acct.positions, prices), prices);
  }

  lemma {:induction false} RunKeeps(cfg: Config, initial: real, st: State, evs: seq<Event>)
    requires Good(initial, st)
    ensures Keeps(initial, st, Run(cfg, st, evs))
    decreases |evs|
  {
    hide Good, Keeps, Step;
    NothingKeeps(initial, st);
    if evs != [] {
      var m := Step(cfg, st, evs[0]);
      StepKeeps(cfg, initial, st, evs[0]);
      KeepsGood(initial, st, m);
      RunKeeps(cfg, initial, m, evs[1..]);
      KeepsTrans(initial, st, m, Run(cfg, m, evs[1..]));
    }
  }

  // ---------------------------------------------------------------- what a submission stores

  /** A submission that is not refused stores one order; if it rests, it has the requested
      terms. */
  lemma SubmitEnters(cfg: Config, st: State, req: Request, mid: real, depth: bool) returns (p: Order)
    requires Refuses(req).None?
    ensures Submit(cfg, st, req, mid, depth).desk == Enter(st.desk, p)
    ensures var o := NewOrder(req);
            p.status == Pending ==> p == o.(terms := Registered(o.terms, o.side, mid))
  {
    hide Enter, Post, Unresolved, MarketPrice, Marketable, RoundPrice, Averaged, Round4;
    var o := NewOrder(req);
    var price := if o.terms.AtLimit? then o.terms.price else MarketPrice(cfg, mid, o.side, o.quantity);
    var f := ImmediateFill(cfg, st.desk.next, req, o, price);
    p := o.(terms := Registered(o.terms, o.side, mid));
    if Submit(cfg, st, req, mid, depth).desk == Enter(st.desk, o.(status := Cancelled)) {
      p := o.(status := Cancelled);
    } else if Submit(cfg, st, req, mid, depth).desk == Enter(st.desk, o.(status := Rejected)) {
      p := o.(status := Rejected);
    } else if o.terms.Immediate? || Marketable(o.side, MarketPrice(cfg, mid, o.side, o.quantity), price) {
      if o.terms.Immediate? || o.terms.AtLimit? {
        p := o.(status := Filled, filledPrice := f.price, filledQuantity := o.quantity, fee := Round4(f.fee));
      }
    }
  }
}
