/** The cumulative order counters against the stored orders: over any run as many orders are
    counted filled, or cancelled, as there are. */
module OrderTallies {
  import opened Basics
  import opened Accounts
  import opened Desk
  import opened Engine
  import opened Runs
  import opened RunTheorems

  function Having(d: Desk, s: Status): set<nat> { set id | id in d.orders && d.orders[id].status == s }

  ghost predicate Tally(d: Desk)
  {
    d.counts.filled == |Having(d, Filled)| && d.counts.cancelled == |Having(d, Cancelled)|
  }

  ghost predicate Watched(d: Desk) { forall id :: id in d.orders ==> d.orders[id].watched }

  // ---------------------------------------------------------------- one transition

  /** One order reaches, or is stored with, a status, and is counted for it. */
  lemma Counted(d: Desk, e: Desk, id: nat)
    requires Tally(d) && id in e.orders && e.orders == d.orders[id := e.orders[id]]
    requires id in d.orders ==> d.orders[id].status == Pending
    requires var s := e.orders[id].status;
             && e.counts.filled == d.counts.filled + (if s == Filled then 1 else 0)
             && e.counts.cancelled == d.counts.cancelled + (if s == Cancelled then 1 else 0)
    ensures Tally(e)
  {
    HavingOneMore(d, e, id, Filled);
    HavingOneMore(d, e, id, Cancelled);
  }

  lemma HavingOneMore(d: Desk, e: Desk, id: nat, s: Status)
    requires id in e.orders && e.orders == d.orders[id := e.orders[id]] && s != Pending
    requires id in d.orders ==> d.orders[id].status == Pending
    ensures |Having(e, s)| == |Having(d, s)| + (if e.orders[id].status == s then 1 else 0)
  {
    if e.orders[id].status == s {
      assert id !in Having(d, s) && Having(e, s) == Having(d, s) + {id};
    } else {
      assert Having(e, s) == Having(d, s);
    }
  }

  /** Nothing was filled or cancelled, or counted so. */
  lemma Uncounted(d: Desk, e: Desk)
    requires Tally(d) && e.orders.Keys == d.orders.Keys
    requires forall id :: id in d.orders ==> e.orders[id].status == d.orders[id].status
    requires e.counts.filled == d.counts.filled && e.counts.cancelled == d.counts.cancelled
    ensures Tally(e)
  {
    assert Having(e, Filled) == Having(d, Filled) && Having(e, Cancelled) == Having(d, Cancelled);
  }

  lemma CancelTallies(d: Desk, id: nat)
    requires Tally(d) && Watched(d) && IsPending(d, id)
    ensures Tally(CancelResting(d, id)) && Watched(CancelResting(d, id))
  {
    hide Drop, Tally;
    Counted(d, CancelResting(d, id), id);
  }

  lemma {:induction false} SiblingsTally(d: Desk, members: seq<nat>, winner: nat)
    requires Tally(d) && Watched(d)
    ensures Tally(CancelSiblings(d, members, winner)) && Watched(CancelSiblings(d, members, winner))
    decreases |members|
  {
    hide CancelResting, Tally, Watched;
    if members != [] {
      var m := members[0];
      if m != winner && m in d.orders && d.orders[m].status == Pending {
        CancelTallies(d, m);
        SiblingsTally(CancelResting(d, m), members[1..], winner);
      } else {
        SiblingsTally(d, members[1..], winner);
      }
    }
  }

  lemma ResolveTallies(d: Desk, id: nat)
    requires Tally(d) && Watched(d) && id in d.orders
    ensures Tally(Resolve(d, id))
  {
    hide CancelSiblings;
    var g := d.orders[id].group;
    if g.Some? && g.value in d.groups {
      var e := d.(groups := d.groups[g.value := d.groups[g.value].(winner := Some(id))]);
      Uncounted(d, e);
      SiblingsTally(e, d.groups[g.value].members, id);
    }
  }

  lemma EnterTallies(d: Desk, o: Order)
    requires Tally(d) && Watched(d) && d.next !in d.orders
    ensures Tally(Enter(d, o))
  {
    hide Resolve, Shelve, Join, Tally;
    var e := Entered(d, o);
    Counted(d, e, d.next);
    if o.status == Filled { ResolveTallies(e, d.next); }
  }

  lemma FillTallies(d: Desk, id: nat, t: Terms, price: real, quantity: real, fee: real)
    requires Tally(d) && Watched(d) && IsPending(d, id)
    ensures Tally(FillResting(d, id, t, price, quantity, fee))
  {
    hide Resolve, Drop, Tally;
    var m := SetStatus(d, id, Filled);
    var o := m.orders[id].(terms := t, filledPrice := price, filledQuantity := quantity, fee := fee);
    var e := m.(orders := m.orders[id := o], books := Drop(d.books, id));
    assert e.orders == d.orders[id := o];
    Counted(d, e, id);
    ResolveTallies(e, id);
  }

  lemma RejectTallies(d: Desk, id: nat, t: Terms)
    requires Tally(d) && Watched(d) && IsPending(d, id)
    ensures Tally(RejectResting(Retune(d, id, t), id)) && Tally(Retune(d, id, t))
  {
    hide Drop, Tally;
    var m := Retune(d, id, t);
    Uncounted(d, m);
    var e := RejectResting(m, id);
    assert e.orders == m.orders[id := e.orders[id]];
    Counted(m, e, id);
  }

  lemma SoundWatched(initial: real, st: State)
    requires Good(initial, st)
    ensures Watched(st.desk) && st.desk.next !in st.desk.orders
  {
  }

  // ---------------------------------------------------------------- one step

  lemma SubmitTallies(cfg: Config, initial: real, st: State, req: Request, mid: real, depth: bool)
    requires Good(initial, st) && Tally(st.desk)
    ensures Tally(Submit(cfg, st, req, mid, depth).desk)
  {
    hide Good, Tally, Enter;
    SoundWatched(initial, st);
    if Refuses(req).Some? {
      Uncounted(st.desk, Bounce(st.desk));
    } else {
      var p := SubmitEnters(cfg, st, req, mid, depth);
      EnterTallies(st.desk, p);
    }
  }

  lemma ExecuteTallies(cfg: Config, initial: real, st: State, id: nat, t: Terms, price: real)
    requires Good(initial, st) && Tally(st.desk) && IsPending(st.desk, id)
    ensures Tally(Execute(cfg, st, id, t, price).desk)
  {
    hide Good, Tally, Post, FillResting, RejectResting, Retune, MarginCovers, SizeAllowed, RestingFill, Watched;
    var o := st.desk.orders[id];
    var f := RestingFill(cfg, id, o, o.quantity, price);
    SoundWatched(initial, st);
    RejectTallies(st.desk, id, t);
    FillTallies(st.desk, id, t, f.price, o.quantity, f.fee);
  }

  lemma SliceTallies(cfg: Config, initial: real, st: State, id: nat, price: real)
    requires Good(initial, st) && Tally(st.desk) && IsPending(st.desk, id)
    requires st.desk.orders[id].terms.Iceberg? && st.desk.orders[id].terms.hidden > 0.0
    ensures Tally(Slice(cfg, st, id, price).desk)
  {
    hide Good, Tally, Post, FillResting, Retune, MarginCovers, SizeAllowed, RestingFill, Watched;
    var o := st.desk.orders[id];
    var quantity: Qty := Min(o.terms.visible, o.terms.hidden);
    var t := o.terms.(hidden := o.terms.hidden - quantity, slices := o.terms.slices + 1);
    SoundWatched(initial, st);
    RejectTallies(st.desk, id, t);
    FillTallies(st.desk, id, t, o.filledPrice, o.quantity, o.fee);
    Uncounted(st.desk, RejectSlice(st.desk));
  }

  lemma TickTallies(cfg: Config, initial: real, st: State, id: nat, prices: Symbol -> real, now: real)
    requires Good(initial, st) && Tally(st.desk)
    ensures Tally(Tick(cfg, st, id, prices, now).desk)
  {
    hide Good, Tally, Execute, Slice, Retune, CancelResting, Marketable, StopReached, Advance, Slipped, Watched;
    if IsPending(st.desk, id) {
      SoundWatched(initial, st);
      var o := st.desk.orders[id];
      var price := prices(o.symbol);
      match o.terms
      case Immediate =>
      case AtLimit(limit, _) =>
        CancelTallies(st.desk, id);
        ExecuteTallies(cfg, initial, st, id, o.terms, limit);
      case StopLimit(stop, limit, triggered) =>
        var t := o.terms.(triggered := triggered || StopReached(o.side, price, stop));
        RejectTallies(st.desk, id, t);
        ExecuteTallies(cfg, initial, st, id, t, limit);
      case Trailing(_, _, _, _, _, _) =>
        if price != 0.0 {
          RejectTallies(st.desk, id, Advance(o.terms, o.side, price));
          ExecuteTallies(cfg, initial, st, id, Advance(o.terms, o.side, price), Slipped(cfg, o.side, price));
        }
      case Iceberg(floor, _, hidden, _) =>
        if hidden > 0.0 {
          SliceTallies(cfg, initial, st, id, price);
          if floor.Some? { SliceTallies(cfg, initial, st, id, floor.value); }
        }
    }
  }

  lemma {:induction false} SweepTallies(cfg: Config, initial: real, st: State, ids: seq<nat>, prices: Symbol -> real,
                                        now: real)
    requires Good(initial, st) && Tally(st.desk)
    ensures var r := Sweep(cfg, st, ids, prices, now); Good(initial, r) && Tally(r.desk)
    decreases |ids|
  {
    hide Good, Keeps, Tally, Tick;
    if ids != [] {
      var m := Tick(cfg, st, ids[0], prices, now);
      TickKeeps(cfg, initial, st, ids[0], prices, now);
      KeepsGood(initial, st, m);
      TickTallies(cfg, initial, st, ids[0], prices, now);
      SweepTallies(cfg, initial, m, ids[1..], prices, now);
    }
  }

  lemma {:induction false} CloseAllTallies(cfg: Config, initial: real, st: State, ts: seq<Trigger>,
                                           prices: Symbol -> real)
    requires Good(initial, st) && Tally(st.desk)
    ensures Tally(CloseAll(cfg, st, ts, prices).desk)
    decreases |ts|
  {
    hide Good, Keeps, Tally, Submit, Cover;
    if ts != [] {
      var t, price := ts[0], prices(ts[0].symbol);
      CloseTriggeredKeeps(cfg, initial, st, t, price);
      KeepsGood(initial, st, CloseTriggered(cfg, st, t, price));
      SubmitTallies(cfg, initial, st, CloseRequest(t), price, true);
      CloseAllTallies(cfg, initial, CloseTriggered(cfg, st, t, price), ts[1..], prices);
    }
  }

  lemma {:induction false} CancelAllTallies(d: Desk, ids: seq<nat>, symbol: Option<Symbol>)
    requires Tally(d) && Watched(d)
    ensures Tally(CancelAll(d, ids, symbol))
    decreases |ids|
  {
    hide Tally, Watched, CancelResting;
    if ids != [] {
      var chosen := ids[0] in d.orders && (symbol.None? || d.orders[ids[0]].symbol == symbol.value);
      if IsPending(d, ids[0]) { CancelTallies(d, ids[0]); }
      CancelAllTallies(if chosen then Cancel(d, ids[0]) else d, ids[1..], symbol);
    }
  }

  lemma StepTallies(cfg: Config, initial: real, st: State, ev: Event)
    requires Good(initial, st) && Tally(st.desk)
    ensures Tally(Step(cfg, st, ev).desk)
  {
    hide Good, Tally, Watched, Submit, Sweep, CloseAll, Triggers, CancelAll, CancelResting, ChargeFunding;
    SoundWatched(initial, st);
    match ev
    case Submission(req, mid, depth) => SubmitTallies(cfg, initial, st, req, mid, depth);
    case AdvancedCheck(prices, now) =>
      var a := Sweep(cfg, st, st.desk.books.limits, prices, now);
      var b := Sweep(cfg, a, a.desk.books.stops, prices, now);
      var c := Sweep(cfg, b, b.desk.books.trails, prices, now);
      SweepTallies(cfg, initial, st, st.desk.books.limits, prices, now);
      SweepTallies(cfg, initial, a, a.desk.books.stops, prices, now);
      SweepTallies(cfg, initial, b, b.desk.books.trails, prices, now);
      SweepTallies(cfg, initial, c, c.desk.books.icebergs, prices, now);
    case StopCheck(prices) => CloseAllTallies(cfg, initial, st, Triggers(cfg, st.acct.positions, prices), prices);
    case FundingCharge(_, _) =>
    case CancelOrder(id) => if IsPending(st.desk, id) { CancelTallies(st.desk, id); }
    case CancelOrders(symbol) => CancelAllTallies(st.desk, Resting(st.desk.books), symbol);
  }

  // ---------------------------------------------------------------- whole runs

  lemma {:induction false} RunTallies(cfg: Config, initial: real, st: State, evs: seq<Event>)
    requires Good(initial, st) && Tally(st.desk)
    ensures Tally(Run(cfg, st, evs).desk)
    decreases |evs|
  {
    hide Good, Keeps, Tally, Step;
    if evs != [] {
      StepKeeps(cfg, initial, st, evs[0]);
      KeepsGood(initial, st, Step(cfg, st, evs[0]));
      StepTallies(cfg, initial, st, evs[0]);
      RunTallies(cfg, initial, Step(cfg, st, evs[0]), evs[1..]);
    }
  }

  /** In every reachable state the counters say how many orders are filled and how many cancelled;
      what is left of the submissions rests or was rejected. */
  lemma CountersTally(cfg: Config, initial: real, evs: seq<Event>)
    ensures var d := Run(cfg, Start(initial), evs).desk;
            && d.counts.filled == |Having(d, Filled)| && d.counts.cancelled == |Having(d, Cancelled)|
            && d.counts.submitted == d.counts.filled + d.counts.cancelled + d.counts.rejected + |Resting(d.books)|
  {
    hide Good, Run;
    StartGood(initial);
    NothingStored(initial);
    RunTallies(cfg, initial, Start(initial), evs);
    OrderFlowIsConserved(cfg, initial, evs);
  }

  lemma NothingStored(initial: real)
    ensures Tally(Start(initial).desk)
  {
    assert Having(EMPTY, Filled) == {} && Having(EMPTY, Cancelled) == {};
  }
}
