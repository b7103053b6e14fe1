/** The invariants of a run read off state by state. */
module RunTheorems {
  import opened Basics
  import opened Rounding
  import opened Accounts
  import opened Journal
  import opened Desk
  import opened Engine
  import opened Runs

  /** Every reachable state: nothing is assumed of the requests, the prices, the clock, the
      configuration or the order of events. */
  lemma ReachableGood(cfg: Config, initial: real, evs: seq<Event>)
    ensures Good(initial, Run(cfg, Start(initial), evs))
  {
    hide Good, Keeps, Run;
    StartGood(initial);
    RunKeeps(cfg, initial, Start(initial), evs);
    KeepsGood(initial, Start(initial), Run(cfg, Start(initial), evs));
  }

  /** Cash, insurance and margins against deposits, profit, fees and funding. */
  lemma MoneyIsConserved(cfg: Config, initial: real, evs: seq<Event>)
    ensures var a := Run(cfg, Start(initial), evs).acct;
            (a.balance + a.insurance + Total(a.positions, Margin) + Total(a.abandoned, Margin)
               == initial + a.totalPnl - a.totalFees + Sum(a.journal, Funding))
            && a.totalFees == Sum(a.journal, Fee)
  {
    hide Run, Total, Sum;
    ReachableGood(cfg, initial, evs);
    var a := Run(cfg, Start(initial), evs).acct;
    TotalOfConcat(a.positions, a.abandoned, Margin);
  }

  /** Over the open positions alone the same sum is short by exactly what the trades made the
      exchange forget.  With no negative margin it therefore holds if and only if no trade of the
      run overshot an opposite position by at most 1e-12 with margin locked. */
  lemma OpenMoneyConservedIff(cfg: Config, initial: real, evs: seq<Event>)
    ensures var a := Run(cfg, Start(initial), evs).acct;
            a.balance + a.insurance + Total(a.positions, Margin)
              == initial + a.totalPnl - a.totalFees + Sum(a.journal, Funding) - Lost(initial, a.journal)
    ensures var a := Run(cfg, Start(initial), evs).acct;
            (forall k :: 0 <= k < |a.journal| && a.journal[k].Traded? ==> a.journal[k].fill.margin >= 0.0) ==>
              (a.balance + a.insurance + Total(a.positions, Margin)
                 == initial + a.totalPnl - a.totalFees + Sum(a.journal, Funding)
               <==> forall k :: 0 <= k < |a.journal| ==> !DroppedAt(initial, a.journal, k))
  {
    hide Run, Total, Sum, Lost, Replayed, DroppedAt;
    ReachableGood(cfg, initial, evs);
    var a := Run(cfg, Start(initial), evs).acct;
    ReplayedFunds(initial, a.journal);
    if forall k :: 0 <= k < |a.journal| && a.journal[k].Traded? ==> a.journal[k].fill.margin >= 0.0 {
      LostIffDropped(initial, a.journal);
    }
  }

  function MarketRequest(side: Side, quantity: real): Request
  {
    Request(0, side, quantity, MarketOrder, None, None, None, false, None, None, None, true, None, None, GTC, false,
            None)
  }

  /** At leverage one, without fee or slippage, buying one unit at 1 and selling 1 + 1e-12 of it
      costs 1e-12, though neither profit nor fee was booked. */
  lemma TwoOrdersLoseMargin()
    ensures var cfg := Config(0.0, 0.0, 1, 0.5, 0.005);
            var evs := [Submission(MarketRequest(Buy, 1.0), 1.0, true),
                        Submission(MarketRequest(Sell, 1.0 + DUST), 1.0, true)];
            var a := Run(cfg, Start(10.0), evs).acct;
            && a.positions == [] && a.balance == 10.0 - DUST
            && a.insurance == 0.0 && a.totalPnl == 0.0 && a.totalFees == 0.0
  {
    hide Submit, Post, MarketRequest;
    var cfg := Config(0.0, 0.0, 1, 0.5, 0.005);
    var e0 := Submission(MarketRequest(Buy, 1.0), 1.0, true);
    var e1 := Submission(MarketRequest(Sell, 1.0 + DUST), 1.0, true);
    var s1 := Step(cfg, Start(10.0), e0);
    var s2 := Step(cfg, s1, e1);
    DustWitness();
    FilledAtOne(cfg, Start(10.0), Buy, 1.0);
    FilledAtOne(cfg, s1, Sell, 1.0 + DUST);
    assert [e0, e1][1..] == [e1] && [e1][1..] == [];
    assert Run(cfg, s2, []) == s2;
    assert Run(cfg, s1, [e1]) == s2;
  }

  /** A market order at a price of one, where nothing slips and nothing is charged. */
  lemma FilledAtOne(cfg: Config, st: State, side: Side, quantity: Qty)
    requires cfg.feePct == 0.0 && cfg.slippageBps == 0.0 && cfg.leverage == 1 && quantity < 2.0
    requires st.acct.balance >= 4.0
    ensures var r := Submit(cfg, st, MarketRequest(side, quantity), 1.0, true);
            && r.acct == Post(st.acct, Traded(Fill(st.desk.next, 0, side, quantity, 1.0, 0.0, quantity, None, None)))
            && r.desk.next == st.desk.next + 1
  {
    hide Submit, MarketRequest, NewOrder, FillNow;
    MarketFills(cfg, st, side, quantity);
    FillsAtOne(cfg, st, MarketRequest(side, quantity), NewOrder(MarketRequest(side, quantity)));
  }

  lemma MarketFills(cfg: Config, st: State, side: Side, quantity: Qty)
    requires cfg.slippageBps == 0.0 && quantity < 2.0
    ensures var req := MarketRequest(side, quantity);
            && Refuses(req).None? && !req.forceClose && req.stopLoss.None? && req.takeProfit.None?
            && NewOrder(req).symbol == 0 && NewOrder(req).side == side && NewOrder(req).quantity == quantity
            && Submit(cfg, st, req, 1.0, true) == FillNow(cfg, st, req, NewOrder(req), 1.0, 1.0)
  {
    hide FillNow, MarketPrice, Admit;
    PlainPrice(cfg, side, quantity);
  }

  lemma FillsAtOne(cfg: Config, st: State, req: Request, o: Order)
    requires cfg.feePct == 0.0 && cfg.leverage == 1 && o.quantity < 2.0 && st.acct.balance >= 4.0
    requires !req.forceClose && req.stopLoss.None? && req.takeProfit.None? && cfg.slippageBps == 0.0
    ensures var r := FillNow(cfg, st, req, o, 1.0, 1.0);
            var f := Fill(st.desk.next, o.symbol, o.side, o.quantity, 1.0, 0.0, o.quantity, None, None);
            && r.acct == Post(st.acct, Traded(f))
            && r.desk.next == st.desk.next + 1
  {
    hide Post, Averaged, RoundPrice, Round4, Notional, Lever, FeeOf, MarginCovers, SizeAllowed, Enter;
    PlainPrice(cfg, o.side, o.quantity);
    PlainCost(cfg, st.acct.balance, o.quantity);
    var f := ImmediateFill(cfg, st.desk.next, req, o, 1.0);
    EnterNext(st.desk, o.(status := Filled, filledPrice := f.price, filledQuantity := o.quantity,
                          fee := Round4(f.fee)));
  }

  lemma EnterNext(d: Desk, o: Order)
    ensures Enter(d, o).next == d.next + 1
  {
  }

  lemma PlainPrice(cfg: Config, side: Side, quantity: Qty)
    requires cfg.slippageBps == 0.0 && quantity < 2.0
    ensures MarketPrice(cfg, 1.0, side, quantity) == 1.0
    ensures Averaged(1.0, side, quantity) == 1.0 && RoundPrice(1.0) == 1.0
  {
  }

  lemma PlainCost(cfg: Config, balance: real, quantity: Qty)
    requires cfg.feePct == 0.0 && cfg.leverage == 1 && quantity < 2.0 && balance >= 4.0
    ensures Notional(1.0, quantity) == quantity && quantity / Lever(cfg) == quantity && FeeOf(cfg, quantity) == 0.0
    ensures MarginCovers(cfg, balance, quantity) && SizeAllowed(cfg, balance, quantity)
  {
  }

  /** Average-cost accounting against the trades: profit is the net cash of all trades plus
      the cost of what is held, and each position is the net of the trades in its symbol. */
  lemma AverageCostIsExact(cfg: Config, initial: real, evs: seq<Event>, s: Symbol)
    ensures var a := Run(cfg, Start(initial), evs).acct;
            && a.totalPnl == Sum(a.journal, Cash) + Total(a.positions, Cost) + Total(a.abandoned, Cost)
            && SignedPosition(a.positions, s) + Total(a.abandoned, Exposure(Only(s))) == Sum(a.journal, Weigh(Only(s)))
  {
    hide Run, Total, Sum, SignedPosition;
    ReachableGood(cfg, initial, evs);
    var a := Run(cfg, Start(initial), evs).acct;
    TotalOfConcat(a.positions, a.abandoned, Cost);
    PositionIsNetFills(initial, a, s);
  }

  /** A group's members are exactly the orders submitted with it.  Unresolved, none of them is
      filled; resolved, exactly the recorded one is, and every other is cancelled or rejected. */
  lemma OneCancelsOther(cfg: Config, initial: real, evs: seq<Event>, g: GroupId)
    ensures var d := Run(cfg, Start(initial), evs).desk;
            if g in d.groups then GroupExclusive(d, g) else Unused(d, g)
  {
    hide Run, Reconciled, Core, Matched, ExclusiveBut, GroupExclusive;
    ReachableGood(cfg, initial, evs);
    ExclusiveGroup(Run(cfg, Start(initial), evs).desk, g);
  }

  /** No order names the group. */
  ghost predicate Unused(d: Desk, g: GroupId) { forall id :: id in d.orders ==> d.orders[id].group != Some(g) }

  ghost predicate GroupExclusive(d: Desk, g: GroupId)
    requires g in d.groups
  {
    var (members, winner) := (d.groups[g].members, d.groups[g].winner);
    && (forall id :: id in members <==> id in d.orders && d.orders[id].group == Some(g))
    && (forall id :: id in members ==>
          && (d.orders[id].status == Filled <==> winner == Some(id))
          && (winner.Some? ==> d.orders[id].status != Pending))
    && (winner.Some? ==> winner.value in members)
  }

  lemma ExclusiveGroup(d: Desk, g: GroupId)
    requires Exclusive(d)
    ensures if g in d.groups then GroupExclusive(d, g) else Unused(d, g)
  {
    if g in d.groups {
      var group := d.groups[g];
      forall id | id in group.members ensures id in d.orders && d.orders[id].group == Some(g) {
        var i :| 0 <= i < |group.members| && group.members[i] == id;
        assert d.groups[g].members[i] in d.orders;
      }
    }
  }

  /** Some of the order has been traded, by the journal. */
  predicate HasTraded(st: State, id: nat) { Sum(st.acct.journal, OfOrder(id)) > 0.0 }

  /** An iceberg with a slice done. */
  predicate Sliced(d: Desk, id: nat) { id in d.orders && d.orders[id].terms.Iceberg? && d.orders[id].terms.slices > 0 }

  lemma TradedIff(initial: real, st: State, id: nat)
    requires Good(initial, st)
    ensures HasTraded(st, id) <==> id in st.desk.orders && (st.desk.orders[id].status == Filled || Sliced(st.desk, id))
  {
    hide Sum, Reconciled, Exclusive, BooksExact;
    assert Sum(st.acct.journal, OfOrder(id)) == Executed(st.desk, id);
    if id in st.desk.orders && st.desk.orders[id].terms.Iceberg? {
      var t := st.desk.orders[id].terms;
      assert SlicesOk(st.desk.orders[id]);
      assert t.slices > 0 ==> t.slices as real * t.visible > 0.0;
    }
  }

  /** At most one member of a group has traded if and only if no iceberg among them was sliced
      beside a filled or another sliced member: slices stay when a sibling's fill cancels the rest. */
  lemma OneTradesIff(cfg: Config, initial: real, evs: seq<Event>, g: GroupId)
    ensures var st := Run(cfg, Start(initial), evs);
            g in st.desk.groups ==>
              var group := st.desk.groups[g];
              ((forall i, j :: i in group.members && j in group.members && i != j ==>
                                 !(HasTraded(st, i) && HasTraded(st, j)))
               <==> forall i, j :: i in group.members && j in group.members && i != j && Sliced(st.desk, i) ==>
                      !Sliced(st.desk, j) && group.winner != Some(j))
  {
    hide Run, Good, HasTraded, Sliced;
    ReachableGood(cfg, initial, evs);
    OneCancelsOther(cfg, initial, evs, g);
    var st := Run(cfg, Start(initial), evs);
    forall id { TradedIff(initial, st, id); }
  }

  /** Submitted = filled + rejected + cancelled + resting. */
  lemma OrderFlowIsConserved(cfg: Config, initial: real, evs: seq<Event>)
    ensures var d := Run(cfg, Start(initial), evs).desk;
            && d.counts.submitted == d.counts.filled + d.counts.rejected + d.counts.cancelled + |Resting(d.books)|
            && (forall id :: id in Resting(d.books) <==> IsPending(d, id))
  {
    hide Run, Reconciled, Exclusive, Matched, Stored;
    ReachableGood(cfg, initial, evs);
  }

  lemma {:induction false} RunSplits(cfg: Config, st: State, xs: seq<Event>, ys: seq<Event>)
    ensures Run(cfg, st, xs + ys) == Run(cfg, Run(cfg, st, xs), ys)
    decreases |xs|
  {
    hide Step;
    if xs == [] {
      assert xs + ys == ys;
    } else {
      assert (xs + ys)[0] == xs[0] && (xs + ys)[1..] == xs[1..] + ys;
      RunSplits(cfg, Step(cfg, st, xs[0]), xs[1..], ys);
    }
  }

  /** Whatever happens later, a filled, rejected or cancelled order stays exactly as it is. */
  lemma TerminalIsFinal(cfg: Config, initial: real, before: seq<Event>, after: seq<Event>, id: nat)
    ensures var d := Run(cfg, Start(initial), before).desk;
            var e := Run(cfg, Start(initial), before + after).desk;
            id in d.orders && d.orders[id].status != Pending ==> id in e.orders && e.orders[id] == d.orders[id]
  {
    hide Run, Good;
    RunSplits(cfg, Start(initial), before, after);
    ReachableGood(cfg, initial, before);
    RunKeeps(cfg, initial, Run(cfg, Start(initial), before), after);
  }

  // ---------------------------------------------------------------- icebergs

  function Ceiling(x: real): int { -((-x).Floor) }

  /** An iceberg in any reachable state: what it traded is its quantity less the visible and
      the still hidden part.  Once filled it has traded the visible part too little, in
      exactly as many slices as the hidden part needs, and reports the whole quantity. */
  lemma IcebergAccounting(initial: real, st: State, id: nat)
    requires Good(initial, st) && id in st.desk.orders && st.desk.orders[id].terms.Iceberg?
    ensures var (o, traded) := (st.desk.orders[id], Sum(st.acct.journal, OfOrder(id)));
            && traded + o.terms.hidden == o.quantity - o.terms.visible
            && (o.status == Filled ==>
                  && traded == o.quantity - o.terms.visible
                  && o.filledQuantity == o.quantity
                  && o.terms.slices == Ceiling((o.quantity - o.terms.visible) / o.terms.visible))
  {
    hide Sum, Reconciled, Exclusive, BooksExact;
    var o := st.desk.orders[id];
    assert Sum(st.acct.journal, OfOrder(id)) == Executed(st.desk, id);
    assert SlicesOk(o);
    if o.status == Filled {
      CeilingOf(o.quantity - o.terms.visible, o.terms.visible, o.terms.slices);
    }
  }

  lemma CeilingOf(x: real, v: Qty, n: nat)
    requires n > 0 && (n - 1) as real * v < x <= n as real * v
    ensures n == Ceiling(x / v)
  {
    assert x / v * v == x;
    assert (n - 1) as real < x / v <= n as real by {
      Divides(x, v, (n - 1) as real, n as real);
    }
  }

  lemma Divides(x: real, v: Qty, a: real, b: real)
    requires a * v < x <= b * v
    ensures a < x / v <= b
  {
  }

  /** An accepted slice strictly shrinks the hidden quantity; a refused one changes neither
      the order nor the account. */
  lemma SliceProgress(cfg: Config, initial: real, st: State, id: nat, price: real)
    requires Good(initial, st) && IsPending(st.desk, id)
    requires st.desk.orders[id].terms.Iceberg? && st.desk.orders[id].terms.hidden > 0.0
    ensures var (o, r) := (st.desk.orders[id], Slice(cfg, st, id, price));
            && id in r.desk.orders
            && if r.acct == st.acct then r.desk.orders[id] == o
               else r.desk.orders[id].terms.Iceberg? && 0.0 <= r.desk.orders[id].terms.hidden < o.terms.hidden
  {
    hide Good, Settle, FillResting, RestingFill, Min;
    var o := st.desk.orders[id];
    var quantity := Min(o.terms.visible, o.terms.hidden);
    MinFacts(o.terms.visible, o.terms.hidden);
    var t := o.terms.(hidden := o.terms.hidden - quantity, slices := o.terms.slices + 1);
    PostsSomething(st.acct, Traded(RestingFill(cfg, id, o, quantity, price)));
    if t.hidden <= 0.0 {
      PendingSlices(initial, st, id);
      SliceCounts(o, quantity);
      GoodSound(initial, st);
      FillRestingSound(st.desk, id, t, o.filledPrice, o.quantity, o.fee);
    }
  }

  lemma MinFacts(x: Qty, y: real)
    requires y > 0.0
    ensures 0.0 < Min(x, y) <= y && (Min(x, y) == x || Min(x, y) == y)
  {
  }

  lemma GoodSound(initial: real, st: State)
    requires Good(initial, st)
    ensures Sound(st.desk)
  {
  }

  lemma PostsSomething(a: Account, e: Entry)
    ensures Post(a, e) != a
  {
    assert |Post(a, e).journal| == |a.journal| + 1;
  }
}
