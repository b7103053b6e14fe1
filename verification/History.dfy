/** The incremental triggers of resting orders against the whole price history: what a run
    of the exchange has done to an order depends only on the prices checked since. */
module PriceHistory {
  import opened Basics
  import opened Rounding
  import opened Accounts
  import opened Desk
  import opened Engine
  import opened Runs
  import opened Journal

  // ---------------------------------------------------------------- watching prices

  /** The order's terms after one more price at which it did not execute. */
  function Seen(t: Terms, side: Side, price: real): Terms
    requires price != 0.0
  {
    match t
    case StopLimit(stop, _, triggered) => t.(triggered := triggered || StopReached(side, price, stop))
    case Trailing(_, _, _, _, _, _) => Advance(t, side, price)
    case _ => t
  }

  /** Whether the order tries to execute at this price. */
  predicate Fires(t: Terms, side: Side, price: real)
    requires price != 0.0
  {
    match t
    case AtLimit(limit, _) => Marketable(side, price, limit)
    case StopLimit(_, limit, _) => Seen(t, side, price).triggered && Marketable(side, price, limit)
    case Trailing(_, _, _, _, _, _) => StopReached(side, price, Advance(t, side, price).level)
    case _ => false
  }

  type Price = p: real | p != 0.0 witness 1.0

  function Watched(t: Terms, side: Side, ps: seq<Price>): Terms
  {
    if ps == [] then t else Seen(Watched(t, side, ps[..|ps| - 1]), side, ps[|ps| - 1])
  }

  /** No price in the history makes the order fire. */
  predicate Quiet(t: Terms, side: Side, ps: seq<Price>)
  {
    ps == [] || (Quiet(t, side, ps[..|ps| - 1]) && !Fires(Watched(t, side, ps[..|ps| - 1]), side, ps[|ps| - 1]))
  }

  /** What may have become of a pending order over a price history: unless somebody cancelled
      it, it is pending, with the watched terms, as long as no price fired, and executed or
      rejected from the first that did; a limit was then filled in full, at the limit rounded to
      the tick. */
  ghost predicate Followed(o: Order, r: Order, ps: seq<Price>)
  {
    match r.status
    case Cancelled => true
    case Pending =>
      && Quiet(o.terms, o.side, ps) && r.terms == Watched(o.terms, o.side, ps)
      && r.side == o.side && r.symbol == o.symbol && r.quantity == o.quantity
    case Filled => !Quiet(o.terms, o.side, ps) && PaidLimit(o, r)
    case Rejected => !Quiet(o.terms, o.side, ps)
  }

  /** `r` is `o` filled in full, at its limit rounded to the tick if it has one. */
  predicate PaidLimit(o: Order, r: Order)
  {
    r.filledQuantity == o.quantity && (LimitOf(o.terms).Some? ==> r.filledPrice == RoundPrice(LimitOf(o.terms).value))
  }

  /** One more check: a terminal order is left alone, a pending one goes on. */
  ghost predicate Goes(o: Order, r: Order, ps: seq<Price>)
  {
    if o.status == Pending then Followed(o, r, ps) else r == o
  }

  lemma {:induction false} WatchedConcat(t: Terms, side: Side, xs: seq<Price>, ys: seq<Price>)
    ensures Watched(t, side, xs + ys) == Watched(Watched(t, side, xs), side, ys)
    ensures Quiet(t, side, xs + ys) <==> Quiet(t, side, xs) && Quiet(Watched(t, side, xs), side, ys)
    decreases |ys|
  {
    if ys == [] {
      assert xs + ys == xs;
    } else {
      var zs := ys[..|ys| - 1];
      assert (xs + ys)[..|xs + ys| - 1] == xs + zs;
      WatchedConcat(t, side, xs, zs);
    }
  }

  lemma FollowedGoes(o: Order, m: Order, r: Order, xs: seq<Price>, ys: seq<Price>)
    requires o.status == Pending && Followed(o, m, xs) && Goes(m, r, ys)
    ensures Followed(o, r, xs + ys)
  {
    WatchedConcat(o.terms, o.side, xs, ys);
    WatchedLimit(o.terms, o.side, xs);
  }

  lemma {:induction false} WatchedLimit(t: Terms, side: Side, ps: seq<Price>)
    ensures LimitOf(Watched(t, side, ps)) == LimitOf(t)
    decreases |ps|
  {
    if ps != [] { WatchedLimit(t, side, ps[..|ps| - 1]); }
  }

  // ---------------------------------------------------------------- one tick

  /** Ticking one order only cancels others, siblings in its group. */
  lemma TickOnlyCancels(cfg: Config, initial: real, st: State, id: nat, prices: Symbol -> real, now: real)
    requires Good(initial, st) && id in st.desk.orders
    ensures OnlyCancels(st.desk, Tick(cfg, st, id, prices, now).desk, id)
  {
    hide Good, Execute, Slice, Advance, Slipped, SameKind;
    if IsPending(st.desk, id) {
      var o := st.desk.orders[id];
      var price := prices(o.symbol);
      match o.terms
      case Immediate =>
      case AtLimit(limit, _) =>
        SameKindRefl(o.terms);
        ExecuteEnds(cfg, initial, st, id, o.terms, limit);
      case StopLimit(stop, limit, triggered) =>
        var t := o.terms.(triggered := triggered || StopReached(o.side, price, stop));
        TriggeredSameKind(o.terms, triggered || StopReached(o.side, price, stop));
        ExecuteEnds(cfg, initial, st, id, t, limit);
      case Trailing(_, _, _, _, _, _) =>
        if price != 0.0 {
          AdvanceSameKind(o.terms, o.side, price);
          ExecuteEnds(cfg, initial, st, id, Advance(o.terms, o.side, price), Slipped(cfg, o.side, price));
        }
      case Iceberg(floor, _, hidden, _) =>
        if hidden > 0.0 {
          SliceOnlyCancels(cfg, initial, st, id, price);
          if floor.Some? {
            SliceOnlyCancels(cfg, initial, st, id, floor.value);
          }
        }
    }
  }

  lemma SameKindRefl(t: Terms)
    ensures SameKind(t, t)
  {
  }

  lemma TriggeredSameKind(t: Terms, b: bool)
    requires t.StopLimit?
    ensures SameKind(t.(triggered := b), t)
  {
  }

  /** An attempt to execute leaves the order filled or rejected. */
  lemma ExecuteEnds(cfg: Config, initial: real, st: State, id: nat, t: Terms, price: real)
    requires Good(initial, st) && IsPending(st.desk, id)
    requires SameKind(t, st.desk.orders[id].terms) && !t.Iceberg?
    ensures var e := Execute(cfg, st, id, t, price).desk;
            && OnlyCancels(st.desk, e, id) && (e.orders[id].status == Filled || e.orders[id].status == Rejected)
            && (e.orders[id].status == Filled ==>
                  && e.orders[id].filledPrice == RoundPrice(price)
                  && e.orders[id].filledQuantity == st.desk.orders[id].quantity)
  {
    hide Reconciled, Sound, Matched, FillResting, Post, RoundPrice, Round4;
    var o := st.desk.orders[id];
    var f := RestingFill(cfg, id, o, o.quantity, price);
    FillRestingSound(st.desk, id, t, f.price, o.quantity, f.fee);
  }

  lemma SliceOnlyCancels(cfg: Config, initial: real, st: State, id: nat, price: real)
    requires Good(initial, st) && IsPending(st.desk, id)
    requires st.desk.orders[id].terms.Iceberg? && st.desk.orders[id].terms.hidden > 0.0
    ensures OnlyCancels(st.desk, Slice(cfg, st, id, price).desk, id)
  {
    hide Reconciled, Sound, Matched, FillResting, Post, RoundPrice, Round4, SlicesOk;
    var o := st.desk.orders[id];
    var quantity: Qty := Min(o.terms.visible, o.terms.hidden);
    var t := o.terms.(hidden := o.terms.hidden - quantity, slices := o.terms.slices + 1);
    PendingSlices(initial, st, id);
    SliceCounts(o, quantity);
    if t.hidden <= 0.0 {
      FillRestingSound(st.desk, id, t, o.filledPrice, o.quantity, o.fee);
    }
  }

  function Heard(prices: Symbol -> real, s: Symbol): seq<Price>
  {
    if prices(s) == 0.0 then [] else [prices(s)]
  }

  /** The order's own tick: it fires exactly when its watched terms say so. */
  lemma TickGoes(cfg: Config, initial: real, st: State, id: nat, prices: Symbol -> real, now: real)
    requires Good(initial, st) && id in st.desk.orders && !st.desk.orders[id].terms.Iceberg?
    ensures var r := Tick(cfg, st, id, prices, now).desk;
            id in r.orders && Goes(st.desk.orders[id], r.orders[id], Heard(prices, st.desk.orders[id].symbol))
  {
    hide Good, Execute, Advance, Slipped, Marketable, StopReached, SameKind;
    var o := st.desk.orders[id];
    var price := prices(o.symbol);
    if IsPending(st.desk, id) {
      HeardOnce(o, prices);
      match o.terms
      case Immediate => GoodNotImmediate(initial, st, id);
      case AtLimit(limit, _) =>
        SameKindRefl(o.terms);
        ExecuteEnds(cfg, initial, st, id, o.terms, limit);
      case StopLimit(stop, limit, triggered) =>
        var t := o.terms.(triggered := triggered || StopReached(o.side, price, stop));
        TriggeredSameKind(o.terms, triggered || StopReached(o.side, price, stop));
        ExecuteEnds(cfg, initial, st, id, t, limit);
      case Trailing(_, _, _, _, _, _) =>
        if price != 0.0 {
          AdvanceSameKind(o.terms, o.side, price);
          ExecuteEnds(cfg, initial, st, id, Advance(o.terms, o.side, price), Slipped(cfg, o.side, price));
        }
    }
  }

  lemma HeardOnce(o: Order, prices: Symbol -> real)
    ensures var ps := Heard(prices, o.symbol);
            if prices(o.symbol) == 0.0
            then ps == [] && Watched(o.terms, o.side, ps) == o.terms && Quiet(o.terms, o.side, ps)
            else Watched(o.terms, o.side, ps) == Seen(o.terms, o.side, prices(o.symbol))
                 && (Quiet(o.terms, o.side, ps) <==> !Fires(o.terms, o.side, prices(o.symbol)))
  {
  }

  lemma GoodNotImmediate(initial: real, st: State, id: nat)
    requires Good(initial, st) && IsPending(st.desk, id)
    ensures !st.desk.orders[id].terms.Immediate?
  {
  }

  // ---------------------------------------------------------------- one pass, one check

  /** Untouched, or cancelled while pending. */
  ghost predicate Aside(o: Order, r: Order)
  {
    r == o || (o.status == Pending && r == o.(status := Cancelled))
  }

  lemma {:induction false} SweepGoes(cfg: Config, initial: real, st: State, ids: seq<nat>, prices: Symbol -> real,
                                     now: real, id: nat)
    requires Good(initial, st) && id in st.desk.orders && !st.desk.orders[id].terms.Iceberg? && Distinct(ids)
    ensures var r := Sweep(cfg, st, ids, prices, now);
            && Keeps(initial, st, r) && id in r.desk.orders
            && (id in ids ==> Goes(st.desk.orders[id], r.desk.orders[id], Heard(prices, st.desk.orders[id].symbol)))
            && (id !in ids ==> Aside(st.desk.orders[id], r.desk.orders[id]))
    decreases |ids|
  {
    hide Good, Keeps, Tick, Distinct, Followed;
    SweepKeeps(cfg, initial, st, ids, prices, now);
    if ids != [] {
      var m := Tick(cfg, st, ids[0], prices, now);
      TickKeeps(cfg, initial, st, ids[0], prices, now);
      KeepsGood(initial, st, m);
      DistinctTail(ids);
      var o := st.desk.orders[id];
      if ids[0] == id {
        TickGoes(cfg, initial, st, id, prices, now);
        KeepsIcebergs(initial, st, m, id);
        SweepGoes(cfg, initial, m, ids[1..], prices, now, id);
        GoesAside(o, m.desk.orders[id], Sweep(cfg, m, ids[1..], prices, now).desk.orders[id], Heard(prices, o.symbol));
      } else {
        if ids[0] in st.desk.orders {
          TickOnlyCancels(cfg, initial, st, ids[0], prices, now);
        } else {
          TickAbsent(cfg, st, ids[0], prices, now);
        }
        assert Aside(o, m.desk.orders[id]);
        SweepGoes(cfg, initial, m, ids[1..], prices, now, id);
        var r := Sweep(cfg, m, ids[1..], prices, now).desk.orders[id];
        if id in ids {
          AsideGoes(o, m.desk.orders[id], r, Heard(prices, o.symbol));
        }
      }
    }
  }

  lemma TickAbsent(cfg: Config, st: State, id: nat, prices: Symbol -> real, now: real)
    requires id !in st.desk.orders
    ensures Tick(cfg, st, id, prices, now) == st
  {
  }

  lemma DistinctTail(ids: seq<nat>)
    requires ids != [] && Distinct(ids)
    ensures Distinct(ids[1..]) && ids[0] !in ids[1..] && ids == [ids[0]] + ids[1..]
  {
  }

  lemma KeepsIcebergs(initial: real, a: State, b: State, id: nat)
    requires Keeps(initial, a, b) && id in a.desk.orders
    ensures id in b.desk.orders && SameOrder(a.desk.orders[id], b.desk.orders[id])
    ensures a.desk.orders[id].status != Pending ==> b.desk.orders[id] == a.desk.orders[id]
  {
  }

  lemma GoesAside(o: Order, m: Order, r: Order, ps: seq<Price>)
    requires Goes(o, m, ps) && Aside(m, r)
    ensures Goes(o, r, ps)
  {
  }

  lemma AsideGoes(o: Order, m: Order, r: Order, ps: seq<Price>)
    requires Aside(o, m) && Goes(m, r, ps)
    ensures Goes(o, r, ps)
  {
  }

  /** One advanced check shows a resting order the price of its symbol exactly once. */
  lemma CheckAdvancedGoes(cfg: Config, initial: real, st: State, prices: Symbol -> real, now: real, id: nat)
    requires Good(initial, st) && id in st.desk.orders && !st.desk.orders[id].terms.Iceberg?
    ensures var r := CheckAdvanced(cfg, st, prices, now);
            && Keeps(initial, st, r) && id in r.desk.orders
            && Goes(st.desk.orders[id], r.desk.orders[id], Heard(prices, st.desk.orders[id].symbol))
  {
    hide Good, Keeps, Sweep, Distinct, Followed, SameOrder, Resting;
    var a := Sweep(cfg, st, st.desk.books.limits, prices, now);
    var b := Sweep(cfg, a, a.desk.books.stops, prices, now);
    var c := Sweep(cfg, b, b.desk.books.trails, prices, now);
    var d := Sweep(cfg, c, c.desk.books.icebergs, prices, now);
    CheckAdvancedKeeps(cfg, initial, st, prices, now);
    var ps := Heard(prices, st.desk.orders[id].symbol);
    PassGoes(cfg, initial, st, st.desk.books.limits, prices, now, id);
    PassGoes(cfg, initial, a, a.desk.books.stops, prices, now, id);
    PassGoes(cfg, initial, b, b.desk.books.trails, prices, now, id);
    PassGoes(cfg, initial, c, c.desk.books.icebergs, prices, now, id);
    HomeBook(initial, st, id);
    HomeBook(initial, a, id);
    HomeBook(initial, b, id);
    HomeBook(initial, c, id);
    var o0, o1, o2 := st.desk.orders[id], a.desk.orders[id], b.desk.orders[id];
    var o3, o4 := c.desk.orders[id], d.desk.orders[id];
    if o0.terms.AtLimit? {
      GoesAside(o0, o1, o2, ps);
      GoesAside(o0, o2, o3, ps);
      GoesAside(o0, o3, o4, ps);
    } else if o0.terms.StopLimit? {
      AsideGoes(o0, o1, o2, ps);
      GoesAside(o0, o2, o3, ps);
      GoesAside(o0, o3, o4, ps);
    } else {
      assert Aside(o0, o2);
      AsideGoes(o0, o2, o3, ps);
      GoesAside(o0, o3, o4, ps);
    }
  }

  /** One of the four passes, seen from an order: its own if it is listed, otherwise aside. */
  lemma PassGoes(cfg: Config, initial: real, st: State, ids: seq<nat>, prices: Symbol -> real, now: real, id: nat)
    requires Good(initial, st) && id in st.desk.orders && !st.desk.orders[id].terms.Iceberg?
    requires ids == st.desk.books.limits || ids == st.desk.books.stops || ids == st.desk.books.trails ||
      ids == st.desk.books.icebergs
    ensures var r := Sweep(cfg, st, ids, prices, now);
            && Good(initial, r) && id in r.desk.orders
            && !r.desk.orders[id].terms.Iceberg? && r.desk.orders[id].symbol == st.desk.orders[id].symbol
            && (r.desk.orders[id].terms.AtLimit? <==> st.desk.orders[id].terms.AtLimit?)
            && (r.desk.orders[id].terms.StopLimit? <==> st.desk.orders[id].terms.StopLimit?)
            && (r.desk.orders[id].terms.Trailing? <==> st.desk.orders[id].terms.Trailing?)
            && (id in ids ==> Goes(st.desk.orders[id], r.desk.orders[id], Heard(prices, st.desk.orders[id].symbol)))
            && (id !in ids ==> Aside(st.desk.orders[id], r.desk.orders[id]))
  {
    hide Good, Keeps, Sweep, Followed, Goes, Aside;
    BooksDistinct(initial, st);
    SweepGoes(cfg, initial, st, ids, prices, now, id);
    KeepsGood(initial, st, Sweep(cfg, st, ids, prices, now));
    KeepsIcebergs(initial, st, Sweep(cfg, st, ids, prices, now), id);
  }

  lemma BooksDistinct(initial: real, st: State)
    requires Good(initial, st)
    ensures var b := st.desk.books;
            Distinct(b.limits) && Distinct(b.stops) && Distinct(b.trails) && Distinct(b.icebergs)
  {
    var b := st.desk.books;
    DistinctParts(b.limits + b.stops + b.trails, b.icebergs);
    DistinctParts(b.limits + b.stops, b.trails);
    DistinctParts(b.limits, b.stops);
  }

  lemma DistinctParts(s: seq<nat>, t: seq<nat>)
    requires Distinct(s + t)
    ensures Distinct(s) && Distinct(t)
  {
    assert forall i :: 0 <= i < |s| ==> s[i] == (s + t)[i];
    assert forall i :: 0 <= i < |t| ==> t[i] == (s + t)[|s| + i];
  }

  /** A pending order that is no iceberg is in the book of its kind and in no other; one that
      is not pending is in none. */
  lemma HomeBook(initial: real, st: State, id: nat)
    requires Good(initial, st) && id in st.desk.orders && !st.desk.orders[id].terms.Iceberg?
    ensures var (b, o) := (st.desk.books, st.desk.orders[id]);
            && id !in b.icebergs && (o.status == Pending ==> !o.terms.Immediate?)
            && (id in b.limits <==> o.status == Pending && o.terms.AtLimit?)
            && (id in b.stops <==> o.status == Pending && o.terms.StopLimit?)
            && (id in b.trails <==> o.status == Pending && o.terms.Trailing?)
  {
    assert id in Resting(st.desk.books) <==> IsPending(st.desk, id);
    var b := st.desk.books;
    assert id in Resting(b) <==> id in b.limits || id in b.stops || id in b.trails || id in b.icebergs;
    if IsPending(st.desk, id) { GoodNotImmediate(initial, st, id); }
  }

  // ---------------------------------------------------------------- whole runs

  /** The prices of a symbol that the advanced checks of a run looked at. */
  function Checked(evs: seq<Event>, s: Symbol): seq<Price>
  {
    if evs == [] then []
    else (if evs[0].AdvancedCheck? then Heard(evs[0].prices, s) else []) + Checked(evs[1..], s)
  }

  lemma StepGoes(cfg: Config, initial: real, st: State, ev: Event, id: nat)
    requires Good(initial, st) && id in st.desk.orders && !st.desk.orders[id].terms.Iceberg?
    ensures var r := Step(cfg, st, ev);
            && id in r.desk.orders
            && Goes(st.desk.orders[id], r.desk.orders[id],
                    if ev.AdvancedCheck? then Heard(ev.prices, st.desk.orders[id].symbol) else [])
  {
    hide Good, Keeps, Followed, Goes, Aside, CheckAdvanced, CloseAll, Submit, CancelAll, ChargeFunding, CancelResting;
    var o := st.desk.orders[id];
    AsideQuiet(o, o);
    match ev
    case Submission(req, mid, depth) =>
      SubmitAside(cfg, initial, st, req, mid, depth, id);
      AsideQuiet(o, Submit(cfg, st, req, mid, depth).desk.orders[id]);
    case AdvancedCheck(prices, now) => CheckAdvancedGoes(cfg, initial, st, prices, now, id);
    case StopCheck(prices) =>
      StopsAside(cfg, initial, st, Triggers(cfg, st.acct.positions, prices), prices, id);
      AsideQuiet(o, CheckStops(cfg, st, prices).desk.orders[id]);
    case FundingCharge(_, _) =>
    case CancelOrder(other) =>
      CancelAside(st.desk, other, id);
      AsideQuiet(o, Cancel(st.desk, other).orders[id]);
    case CancelOrders(symbol) =>
      CancelAllAside(st.desk, Resting(st.desk.books), symbol, id);
      AsideQuiet(o, CancelAll(st.desk, Resting(st.desk.books), symbol).orders[id]);
  }

  lemma AsideQuiet(o: Order, r: Order)
    requires Aside(o, r)
    ensures Goes(o, r, [])
  {
  }

  lemma SubmitAside(cfg: Config, initial: real, st: State, req: Request, mid: real, depth: bool, id: nat)
    requires Good(initial, st) && id in st.desk.orders
    ensures id in Submit(cfg, st, req, mid, depth).desk.orders
    ensures Aside(st.desk.orders[id], Submit(cfg, st, req, mid, depth).desk.orders[id])
  {
    hide Good, Enter;
    if Refuses(req).None? {
      var p := SubmitEnters(cfg, st, req, mid, depth);
      GoodNext(initial, st);
      EnterAside(st.desk, p, id);
    }
  }

  lemma GoodNext(initial: real, st: State)
    requires Good(initial, st)
    ensures st.desk.next !in st.desk.orders
  {
  }

  lemma EnterAside(d: Desk, p: Order, id: nat)
    requires id in d.orders && d.next !in d.orders
    ensures id in Enter(d, p).orders && Aside(d.orders[id], Enter(d, p).orders[id])
  {
  }

  lemma {:induction false} StopsAside(cfg: Config, initial: real, st: State, ts: seq<Trigger>, prices: Symbol -> real,
                                      id: nat)
    requires Good(initial, st) && id in st.desk.orders
    ensures var r := CloseAll(cfg, st, ts, prices).desk;
            id in r.orders && Aside(st.desk.orders[id], r.orders[id])
    decreases |ts|
  {
    hide Good, Keeps, Submit;
    if ts != [] {
      var m := CloseTriggered(cfg, st, ts[0], prices(ts[0].symbol));
      CloseTriggeredKeeps(cfg, initial, st, ts[0], prices(ts[0].symbol));
      KeepsGood(initial, st, m);
      SubmitAside(cfg, initial, st, CloseRequest(ts[0]), prices(ts[0].symbol), true, id);
      StopsAside(cfg, initial, m, ts[1..], prices, id);
    }
  }

  lemma CancelAside(d: Desk, other: nat, id: nat)
    requires id in d.orders
    ensures id in Cancel(d, other).orders && Aside(d.orders[id], Cancel(d, other).orders[id])
  {
  }

  lemma {:induction false} CancelAllAside(d: Desk, ids: seq<nat>, symbol: Option<Symbol>, id: nat)
    requires id in d.orders
    ensures id in CancelAll(d, ids, symbol).orders && Aside(d.orders[id], CancelAll(d, ids, symbol).orders[id])
    decreases |ids|
  {
    hide Cancel;
    if ids != [] {
      var chosen := ids[0] in d.orders && (symbol.None? || d.orders[ids[0]].symbol == symbol.value);
      CancelAside(d, ids[0], id);
      CancelAllAside(if chosen then Cancel(d, ids[0]) else d, ids[1..], symbol, id);
    }
  }

  /** Over any run, a pending order that is no iceberg has acted on the whole history of the
      prices checked: unless it was cancelled it is still pending exactly when none of them
      fired, and then its terms are those the history gives. */
  lemma {:induction false} RunFollows(cfg: Config, initial: real, st: State, evs: seq<Event>, id: nat)
    requires Good(initial, st) && IsPending(st.desk, id) && !st.desk.orders[id].terms.Iceberg?
    ensures var (o, r) := (st.desk.orders[id], Run(cfg, st, evs).desk);
            id in r.orders && Followed(o, r.orders[id], Checked(evs, o.symbol))
    decreases |evs|
  {
    RunGoes(cfg, initial, st, evs, id);
  }

  lemma {:induction false} RunGoes(cfg: Config, initial: real, st: State, evs: seq<Event>, id: nat)
    requires Good(initial, st) && id in st.desk.orders && !st.desk.orders[id].terms.Iceberg?
    ensures var (o, r) := (st.desk.orders[id], Run(cfg, st, evs).desk);
            id in r.orders && Goes(o, r.orders[id], Checked(evs, o.symbol))
    decreases |evs|
  {
    hide Good, Keeps, Step, Followed;
    var o := st.desk.orders[id];
    if evs == [] {
      AsideQuiet(o, o);
    } else {
      var m := Step(cfg, st, evs[0]);
      var head := if evs[0].AdvancedCheck? then Heard(evs[0].prices, o.symbol) else [];
      StepGoes(cfg, initial, st, evs[0], id);
      StepKeeps(cfg, initial, st, evs[0]);
      KeepsGood(initial, st, m);
      KeepsIcebergs(initial, st, m, id);
      RunGoes(cfg, initial, m, evs[1..], id);
      assert Checked(evs, o.symbol) == head + Checked(evs[1..], o.symbol);
      GoesTrans(o, m.desk.orders[id], Run(cfg, m, evs[1..]).desk.orders[id], head, Checked(evs[1..], o.symbol));
    }
  }

  lemma GoesTrans(o: Order, m: Order, r: Order, xs: seq<Price>, ys: seq<Price>)
    requires Goes(o, m, xs) && Goes(m, r, ys)
    ensures Goes(o, r, xs + ys)
  {
    if o.status == Pending {
      FollowedGoes(o, m, r, xs, ys);
    }
  }

  // ---------------------------------------------------------------- trailing stops in closed form

  /** The best price for the holder so far: the highest for a sell stop, the lowest for a buy. */
  function Extreme(side: Side, ps: seq<Price>): (e: Price)
    requires ps != []
    ensures e in ps
    ensures forall i :: 0 <= i < |ps| ==> if side == Sell then ps[i] <= e else ps[i] >= e
  {
    var last := ps[|ps| - 1];
    if |ps| == 1 then last
    else
      var e := Extreme(side, ps[..|ps| - 1]);
      assert ps == ps[..|ps| - 1] + [last];
      if side == Sell then (if last > e then last else e) else (if last < e then last else e)
  }

  ghost predicate AllPositive(ps: seq<Price>) { forall i :: 0 <= i < |ps| ==> ps[i] > 0.0 }

  /** The trail below the highest price for a sell stop, above the lowest for a buy stop: an
      amount, or a percentage of that price. */
  function TrailOn(t: Terms, side: Side, extreme: real): real
    requires t.Trailing?
  {
    var distance := if t.percentage then extreme * t.amount / 100.0 else t.amount;
    if side == Sell then extreme - distance else extreme + distance
  }

  lemma TrailFromIs(t: Terms, side: Side, price: real)
    requires t.Trailing?
    ensures TrailFrom(side, t.amount, t.percentage, price) == TrailOn(t, side, price)
  {
  }

  /** The trail on the extreme of the first `n` prices. */
  function TrailLevel(t: Terms, side: Side, ps: seq<Price>, n: nat): real
    requires t.Trailing? && 0 < n <= |ps|
  {
    TrailOn(t, side, Extreme(side, ps[..n]))
  }

  lemma ActivationLevel(t: Terms, side: Side, price: real)
    requires t.Trailing? && !t.activated && price > 0.0
    ensures var u := Advance(t, side, price);
            u.activated && u.level == TrailOn(t, side, price)
            && u.highest == price && u.lowest == price && u.amount == t.amount && u.percentage == t.percentage
  {
  }

  /** The incremental level is the trail on the extreme of all prices seen. */
  lemma {:induction false} TrailingLevel(t: Terms, side: Side, ps: seq<Price>)
    requires t.Trailing? && !t.activated && ps != [] && AllPositive(ps)
    ensures var u := Watched(t, side, ps);
            && u.Trailing? && u.activated && u.amount == t.amount && u.percentage == t.percentage
            && u.level == TrailLevel(t, side, ps, |ps|)
            && (side == Sell ==> u.highest == Extreme(side, ps)) && (side == Buy ==> u.lowest == Extreme(side, ps))
    decreases |ps|
  {
    hide TrailFrom, TrailOn;
    var n := |ps|;
    assert ps[..n] == ps;
    TrailFromIs(t, side, ps[n - 1]);
    if n == 1 {
      assert ps[..0] == [];
      ActivationLevel(t, side, ps[0]);
    } else {
      var qs := ps[..n - 1];
      assert qs[..n - 1] == qs && AllPositive(qs);
      TrailingLevel(t, side, qs);
    }
  }

  /** Price `i` reaches the trail on the extreme of the prices up to and including it. */
  predicate TouchedAt(t: Terms, side: Side, ps: seq<Price>, i: nat)
    requires t.Trailing? && i < |ps|
  {
    if side == Sell then ps[i] <= TrailLevel(t, side, ps, i + 1) else ps[i] >= TrailLevel(t, side, ps, i + 1)
  }

  ghost predicate TrailUntouched(t: Terms, side: Side, ps: seq<Price>)
    requires t.Trailing?
  {
    forall i :: 0 <= i < |ps| ==> !TouchedAt(t, side, ps, i)
  }

  lemma TouchedPrefix(t: Terms, side: Side, ps: seq<Price>, m: nat, i: nat)
    requires t.Trailing? && i < m <= |ps|
    ensures TouchedAt(t, side, ps[..m], i) <==> TouchedAt(t, side, ps, i)
  {
  }

  lemma TrailUntouchedStep(t: Terms, side: Side, ps: seq<Price>)
    requires t.Trailing? && ps != []
    ensures var n := |ps|;
            TrailUntouched(t, side, ps) <==> TrailUntouched(t, side, ps[..n - 1]) && !TouchedAt(t, side, ps, n - 1)
  {
    hide TouchedAt;
    var n := |ps|;
    var qs := ps[..n - 1];
    if TrailUntouched(t, side, ps) {
      forall i | 0 <= i < |qs| ensures !TouchedAt(t, side, qs, i) {
        TouchedPrefix(t, side, ps, n - 1, i);
        assert !TouchedAt(t, side, ps, i);
      }
    }
    if TrailUntouched(t, side, qs) && !TouchedAt(t, side, ps, n - 1) {
      forall i | 0 <= i < n ensures !TouchedAt(t, side, ps, i) {
        if i < n - 1 {
          TouchedPrefix(t, side, ps, n - 1, i);
          assert !TouchedAt(t, side, qs, i);
        }
      }
    }
  }

  /** A fresh trailing stop has kept quiet exactly when its trail is untouched. */
  lemma {:induction false} TrailingQuiet(t: Terms, side: Side, ps: seq<Price>)
    requires t.Trailing? && !t.activated && AllPositive(ps)
    ensures Quiet(t, side, ps) <==> TrailUntouched(t, side, ps)
    decreases |ps|
  {
    hide TrailFrom, TrailUntouched, TrailLevel, Extreme;
    if ps == [] {
      NothingTouched(t, side);
    } else {
      var n := |ps|;
      var qs := ps[..n - 1];
      assert AllPositive(qs);
      TrailingQuiet(t, side, qs);
      TrailUntouchedStep(t, side, ps);
      TrailingLevel(t, side, ps);
      WatchedTrailing(t, side, qs);
    }
  }

  lemma NothingTouched(t: Terms, side: Side)
    requires t.Trailing?
    ensures TrailUntouched(t, side, [])
  {
  }

  lemma {:induction false} WatchedTrailing(t: Terms, side: Side, ps: seq<Price>)
    requires t.Trailing?
    ensures Watched(t, side, ps).Trailing?
    decreases |ps|
  {
    if ps != [] { WatchedTrailing(t, side, ps[..|ps| - 1]); }
  }

  /** Whole runs: a trailing stop registered in `st` and not cancelled is still pending after
      the run exactly when no price checked reached its trail on the extreme so far. */
  lemma TrailingStopHistory(cfg: Config, initial: real, st: State, evs: seq<Event>, id: nat)
    requires Good(initial, st) && IsPending(st.desk, id)
    requires var t := st.desk.orders[id].terms; t.Trailing? && !t.activated
    requires AllPositive(Checked(evs, st.desk.orders[id].symbol))
    ensures var (o, r) := (st.desk.orders[id], Run(cfg, st, evs).desk);
            var ps := Checked(evs, o.symbol);
            && id in r.orders
            && (r.orders[id].status != Cancelled ==>
                  (r.orders[id].status == Pending <==> TrailUntouched(o.terms, o.side, ps)))
            && (r.orders[id].status == Pending && ps != [] ==>
                  r.orders[id].terms.Trailing? && r.orders[id].terms.level == TrailLevel(o.terms, o.side, ps, |ps|))
  {
    hide Good, Run, Watched, Quiet, TrailUntouched, TrailLevel;
    var o := st.desk.orders[id];
    var ps := Checked(evs, o.symbol);
    RunFollows(cfg, initial, st, evs, id);
    TrailingQuiet(o.terms, o.side, ps);
    if ps != [] {
      TrailingLevel(o.terms, o.side, ps);
    }
  }

  /** The prices never turn against the holder: none falls for a sell stop, none rises for a buy. */
  ghost predicate Favourable(side: Side, ps: seq<Price>)
  {
    forall i, j :: 0 <= i < j < |ps| ==> if side == Sell then ps[i] <= ps[j] else ps[i] >= ps[j]
  }

  lemma FavourableUntouched(t: Terms, side: Side, ps: seq<Price>)
    requires t.Trailing? && t.amount > 0.0 && AllPositive(ps) && Favourable(side, ps)
    ensures TrailUntouched(t, side, ps)
  {
    forall i | 0 <= i < |ps| ensures !TouchedAt(t, side, ps, i) {
      var e := Extreme(side, ps[..i + 1]);
      var k :| 0 <= k <= i && ps[..i + 1][k] == e;
      assert ps[k] == e && e > 0.0;
      TrailApart(t, side, e);
      hide TrailOn;
      assert if side == Sell then ps[i] >= e else ps[i] <= e;
    }
  }

  lemma TrailApart(t: Terms, side: Side, e: real)
    requires t.Trailing? && t.amount > 0.0 && e > 0.0
    ensures if side == Sell then TrailOn(t, side, e) < e else TrailOn(t, side, e) > e
  {
    assert e * t.amount > 0.0;
  }

  /** A trailing stop with a positive trail never fires while prices only move in favour. */
  lemma FavourableNeverFires(cfg: Config, initial: real, st: State, evs: seq<Event>, id: nat)
    requires Good(initial, st) && IsPending(st.desk, id)
    requires var t := st.desk.orders[id].terms; t.Trailing? && !t.activated && t.amount > 0.0
    requires var ps := Checked(evs, st.desk.orders[id].symbol);
             AllPositive(ps) && Favourable(st.desk.orders[id].side, ps)
    ensures var r := Run(cfg, st, evs).desk;
            id in r.orders && (r.orders[id].status == Pending || r.orders[id].status == Cancelled)
  {
    hide Good, Run, TrailUntouched, TrailLevel, Favourable;
    var o := st.desk.orders[id];
    FavourableUntouched(o.terms, o.side, Checked(evs, o.symbol));
    TrailingStopHistory(cfg, initial, st, evs, id);
  }

  /** A sell stop never falls, whatever the next price, exactly when its trail is absolute or
      at most 100 percent. */
  lemma SellTrailNeverFallsIff(t: Terms)
    requires t.Trailing? && t.activated && t.highest > 0.0 && t.amount > 0.0
    requires t.level == TrailFrom(Sell, t.amount, t.percentage, t.highest)
    ensures (forall p: real :: p > 0.0 ==> Advance(t, Sell, p).level >= t.level)
            <==> (!t.percentage || t.amount <= 100.0)
  {
    var c := 1.0 - t.amount / 100.0;
    if !t.percentage || t.amount <= 100.0 {
      forall p: real | p > 0.0 ensures Advance(t, Sell, p).level >= t.level {
        if p > t.highest && t.percentage {
          Grows(t.highest, p, c);
        }
      }
    } else {
      var p := t.highest + 1.0;
      Shrinks(t.highest, p, c);
      assert p > 0.0 && Advance(t, Sell, p).level < t.level;
    }
  }

  lemma Grows(x: real, y: real, c: real)
    requires x <= y && c >= 0.0
    ensures x * c <= y * c
  {
  }

  lemma Shrinks(x: real, y: real, c: real)
    requires x < y && c < 0.0
    ensures x * c > y * c
  {
  }

  /** A buy stop never rises. */
  lemma BuyTrailNeverRises(t: Terms, p: real)
    requires t.Trailing? && t.activated && t.amount > 0.0 && p > 0.0
    requires t.level == TrailFrom(Buy, t.amount, t.percentage, t.lowest)
    ensures Advance(t, Buy, p).level <= t.level
  {
  }

  // ---------------------------------------------------------------- stop-limits in closed form

  ghost predicate Reached(side: Side, stop: real, ps: seq<Price>, n: nat)
    requires n <= |ps|
  {
    exists j :: 0 <= j < n && if side == Sell then ps[j] <= stop else ps[j] >= stop
  }

  /** Price `i` goes through the limit, and a price up to it reached the stop. */
  ghost predicate ThroughAt(t: Terms, side: Side, ps: seq<Price>, i: nat)
    requires t.StopLimit? && i < |ps|
  {
    (if side == Sell then ps[i] >= t.limit else ps[i] <= t.limit) && Reached(side, t.stop, ps, i + 1)
  }

  ghost predicate LimitUntouched(t: Terms, side: Side, ps: seq<Price>)
    requires t.StopLimit?
  {
    forall i :: 0 <= i < |ps| ==> !ThroughAt(t, side, ps, i)
  }

  lemma LimitUntouchedStep(t: Terms, side: Side, ps: seq<Price>)
    requires t.StopLimit? && ps != []
    ensures var n := |ps|;
            LimitUntouched(t, side, ps) <==> LimitUntouched(t, side, ps[..n - 1]) && !ThroughAt(t, side, ps, n - 1)
  {
    hide ThroughAt;
    var n := |ps|;
    var qs := ps[..n - 1];
    if LimitUntouched(t, side, ps) {
      forall i | 0 <= i < |qs| ensures !ThroughAt(t, side, qs, i) {
        ThroughPrefix(t, side, ps, n - 1, i);
        assert !ThroughAt(t, side, ps, i);
      }
    }
    if LimitUntouched(t, side, qs) && !ThroughAt(t, side, ps, n - 1) {
      forall i | 0 <= i < n ensures !ThroughAt(t, side, ps, i) {
        if i < n - 1 {
          ThroughPrefix(t, side, ps, n - 1, i);
          assert !ThroughAt(t, side, qs, i);
        }
      }
    }
  }

  lemma ThroughPrefix(t: Terms, side: Side, ps: seq<Price>, m: nat, i: nat)
    requires t.StopLimit? && i < m <= |ps|
    ensures ThroughAt(t, side, ps[..m], i) <==> ThroughAt(t, side, ps, i)
  {
  }

  lemma {:induction false} StopLimitHistory(t: Terms, side: Side, ps: seq<Price>)
    requires t.StopLimit? && !t.triggered
    ensures Watched(t, side, ps) == t.(triggered := Reached(side, t.stop, ps, |ps|))
    ensures Quiet(t, side, ps) <==> LimitUntouched(t, side, ps)
    decreases |ps|
  {
    hide Reached, LimitUntouched;
    var n := |ps|;
    ReachedStep(side, t.stop, ps);
    if ps == [] {
      NothingThrough(t, side);
    } else {
      StopLimitHistory(t, side, ps[..n - 1]);
      LimitUntouchedStep(t, side, ps);
    }
  }

  lemma NothingThrough(t: Terms, side: Side)
    requires t.StopLimit?
    ensures LimitUntouched(t, side, [])
  {
  }

  lemma ReachedStep(side: Side, stop: real, ps: seq<Price>)
    ensures var n := |ps|;
            Reached(side, stop, ps, n)
            <==> n > 0 && (Reached(side, stop, ps[..n - 1], n - 1) || StopReached(side, ps[n - 1], stop))
  {
  }

  /** Whole runs: a stop-limit that nobody cancelled is still pending after the run exactly
      when no price went through its limit at or after one that reached its stop. */
  lemma StopLimitRun(cfg: Config, initial: real, st: State, evs: seq<Event>, id: nat)
    requires Good(initial, st) && IsPending(st.desk, id)
    requires var t := st.desk.orders[id].terms; t.StopLimit? && !t.triggered
    ensures var (o, r) := (st.desk.orders[id], Run(cfg, st, evs).desk);
            var ps := Checked(evs, o.symbol);
            && id in r.orders
            && (r.orders[id].status != Cancelled ==>
                  (r.orders[id].status == Pending <==> LimitUntouched(o.terms, o.side, ps)))
  {
    hide Good, Run, Watched, Quiet, LimitUntouched, Reached;
    var o := st.desk.orders[id];
    RunFollows(cfg, initial, st, evs, id);
    StopLimitHistory(o.terms, o.side, Checked(evs, o.symbol));
  }

  // ---------------------------------------------------------------- limits in closed form

  /** No price came to the limit: all stayed above a buy limit, or below a sell limit. */
  ghost predicate OutOfReach(limit: real, side: Side, ps: seq<Price>)
  {
    forall i :: 0 <= i < |ps| ==> if side == Sell then ps[i] < limit else ps[i] > limit
  }

  lemma {:induction false} LimitQuiet(t: Terms, side: Side, ps: seq<Price>)
    requires t.AtLimit?
    ensures Watched(t, side, ps) == t && (Quiet(t, side, ps) <==> OutOfReach(t.price, side, ps))
    decreases |ps|
  {
    if ps != [] {
      var qs := ps[..|ps| - 1];
      LimitQuiet(t, side, qs);
      assert forall i :: 0 <= i < |qs| ==> qs[i] == ps[i];
    }
  }

  /** Whole runs: a limit order that nobody cancelled is still pending exactly when no price
      checked came to its limit. */
  lemma LimitRun(cfg: Config, initial: real, st: State, evs: seq<Event>, id: nat)
    requires Good(initial, st) && IsPending(st.desk, id) && st.desk.orders[id].terms.AtLimit?
    ensures var (o, r) := (st.desk.orders[id], Run(cfg, st, evs).desk);
            var ps := Checked(evs, o.symbol);
            && id in r.orders
            && (r.orders[id].status != Cancelled ==>
                  (r.orders[id].status == Pending <==> OutOfReach(o.terms.price, o.side, ps)))
  {
    hide Good, Run, Watched, Quiet, OutOfReach;
    var o := st.desk.orders[id];
    RunFollows(cfg, initial, st, evs, id);
    LimitQuiet(o.terms, o.side, Checked(evs, o.symbol));
  }
}
