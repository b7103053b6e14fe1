/** Runs that reach what the invariants allow: an iceberg filled, and two members of one group
    both traded. */
module RunWitnesses {
  import opened Basics
  import opened Rounding
  import opened Accounts
  import opened Journal
  import opened Desk
  import opened Engine
  import opened Runs
  import opened RunTheorems

  /** Leverage one, nothing slips, nothing is charged. */
  predicate Plain(cfg: Config) { cfg.feePct == 0.0 && cfg.slippageBps == 0.0 && cfg.leverage == 1 }

  const GROUP: Option<GroupId> := Some(0)
  const ICEBERG := Request(0, Buy, 3.0, IcebergOrder, None, None, None, false, None, None, None, true, Some(1.0), GROUP,
                           GTC, false, None)
  const LIMIT := Request(0, Buy, 1.0, LimitOrder, Some(90.0), None, None, false, None, None, None, true, None, GROUP,
                         GTC, false, None)

  function RestingIceberg(hidden: real, slices: nat, s: Status): Order
  {
    Order(0, Buy, 3.0, Iceberg(None, 1.0, hidden, slices), s, 0.0, 0.0, 0.0, GROUP, true)
  }

  function RestingLimit(): Order { Order(0, Buy, 1.0, AtLimit(90.0, None), Pending, 0.0, 0.0, 0.0, GROUP, true) }

  function OneOrder(hidden: real, slices: nat): Desk
  {
    Desk(1, map[0 := RestingIceberg(hidden, slices, Pending)], Books([], [], [], [0]), map[0 := Group([0], None)],
         Counts(1, 0, 0, 0))
  }

  function TwoOrders(hidden: real, slices: nat): Desk
  {
    Desk(2, map[0 := RestingIceberg(hidden, slices, Pending), 1 := RestingLimit()], Books([1], [], [], [0]),
         map[0 := Group([0, 1], None)], Counts(2, 0, 0, 0))
  }

  /** The desk after the limit order has filled: the group is won and the iceberg cancelled. */
  function LimitWon(filledPrice: real): Desk
  {
    Desk(2, map[0 := RestingIceberg(1.0, 1, Cancelled),
                1 := RestingLimit().(status := Filled, filledPrice := filledPrice, filledQuantity := 1.0)],
         Books([], [], [], []), map[0 := Group([0, 1], Some(1))], Counts(2, 1, 0, 1))
  }

  function At(price: real): Symbol -> real { (s: Symbol) => price }

  /** What buying one unit does to an account that can pay. */
  function Bought(id: nat, acct: Account, price: real): Account
  {
    Post(acct, Traded(Fill(id, 0, Buy, 1.0, RoundPrice(price), 0.0, price, None, None)))
  }

  // ---------------------------------------------------------------- the steps

  lemma SubmitsIceberg(cfg: Config, initial: real)
    ensures Submit(cfg, Start(initial), ICEBERG, 100.0, true) == State(Opened(initial), OneOrder(2.0, 0))
  {
    hide MarketPrice;
  }

  lemma SubmitsLimit(cfg: Config, acct: Account)
    requires Plain(cfg)
    ensures Submit(cfg, State(acct, OneOrder(2.0, 0)), LIMIT, 100.0, true) == State(acct, TwoOrders(2.0, 0))
  {
    hide FillNow;
    assert [0] + [1] == [0, 1];
  }

  lemma Affordable(cfg: Config, balance: real, price: real)
    requires Plain(cfg) && 0.0 <= 2.0 * price <= balance
    ensures Notional(price, 1.0) == price && FeeOf(cfg, price) == 0.0 && price / Lever(cfg) == price
    ensures Round4(0.0) == 0.0
    ensures MarginCovers(cfg, balance, price) && SizeAllowed(cfg, balance, price)
  {
    assert (0.0 as real).Floor == 0;
  }

  lemma Slices(cfg: Config, acct: Account, d: Desk, hidden: real, slices: nat)
    requires Plain(cfg) && acct.balance >= 200.0 && hidden >= 1.0
    requires 0 in d.orders && d.orders[0] == RestingIceberg(hidden, slices, Pending)
    ensures var r := Slice(cfg, State(acct, d), 0, 100.0);
            var t := Iceberg(None, 1.0, hidden - 1.0, slices + 1);
            && r.acct == Bought(0, acct, 100.0)
            && r.desk == if hidden > 1.0 then Retune(d, 0, t) else FillResting(d, 0, t, 0.0, 3.0, 0.0)
  {
    hide Notional, FeeOf, Lever, MarginCovers, SizeAllowed, Post, FillResting, Retune, RoundPrice, Round4;
    Affordable(cfg, acct.balance, 100.0);
  }

  lemma FirstBuy(initial: real)
    ensures Bought(0, Opened(initial), 100.0).balance == initial - 100.0
  {
  }

  lemma SweepOne(cfg: Config, st: State, id: nat, prices: Symbol -> real)
    ensures Sweep(cfg, st, [id], prices, 0.0) == Tick(cfg, st, id, prices, 0.0)
    ensures Sweep(cfg, st, [], prices, 0.0) == st
  {
    hide Tick;
    assert [id][1..] == [];
    assert Sweep(cfg, Tick(cfg, st, id, prices, 0.0), [], prices, 0.0) == Tick(cfg, st, id, prices, 0.0);
  }

  lemma ChecksIceberg(cfg: Config, acct: Account, hidden: real, slices: nat)
    requires Plain(cfg) && acct.balance >= 200.0 && hidden > 1.0
    ensures CheckAdvanced(cfg, State(acct, OneOrder(hidden, slices)), At(100.0), 0.0)
         == State(Bought(0, acct, 100.0), OneOrder(hidden - 1.0, slices + 1))
  {
    hide Slice, Bought;
    var st := State(acct, OneOrder(hidden, slices));
    Slices(cfg, acct, st.desk, hidden, slices);
    SweepOne(cfg, st, 0, At(100.0));
  }

  lemma LastSlice(cfg: Config, acct: Account)
    requires Plain(cfg) && acct.balance >= 200.0
    ensures var d := CheckAdvanced(cfg, State(acct, OneOrder(1.0, 1)), At(100.0), 0.0).desk;
            0 in d.orders && d.orders[0] == RestingIceberg(0.0, 2, Filled).(filledQuantity := 3.0)
  {
    hide Slice, Bought;
    var st := State(acct, OneOrder(1.0, 1));
    Slices(cfg, acct, st.desk, 1.0, 1);
    SweepOne(cfg, st, 0, At(100.0));
  }

  lemma ChecksBoth(cfg: Config, acct: Account)
    requires Plain(cfg) && acct.balance >= 200.0
    ensures CheckAdvanced(cfg, State(acct, TwoOrders(2.0, 0)), At(100.0), 0.0)
         == State(Bought(0, acct, 100.0), TwoOrders(1.0, 1))
  {
    hide Slice, Execute, Bought;
    var st := State(acct, TwoOrders(2.0, 0));
    Slices(cfg, acct, st.desk, 2.0, 0);
    SweepOne(cfg, st, 1, At(100.0));
    SweepOne(cfg, st, 0, At(100.0));
  }

  lemma LimitWins(price: real)
    ensures FillResting(TwoOrders(1.0, 1), 1, AtLimit(90.0, None), price, 1.0, 0.0) == LimitWon(price)
  {
    var d := TwoOrders(1.0, 1);
    var e := SetStatus(d, 1, Filled);
    var o := e.orders[1].(filledPrice := price, filledQuantity := 1.0, fee := 0.0);
    var m := e.(orders := e.orders[1 := o], books := Drop(d.books, 1), groups := map[0 := Group([0, 1], Some(1))]);
    assert m.books == Books([], [], [], [0]);
    assert [0, 1][1..] == [1] && [1][1..] == [];
    assert CancelSiblings(CancelResting(m, 0), [1], 1) == CancelResting(m, 0);
  }

  lemma ChecksLimit(cfg: Config, acct: Account)
    requires Plain(cfg) && acct.balance >= 180.0
    ensures CheckAdvanced(cfg, State(acct, TwoOrders(1.0, 1)), At(80.0), 0.0)
         == State(Bought(1, acct, 90.0), LimitWon(RoundPrice(90.0)))
  {
    hide Notional, FeeOf, Lever, MarginCovers, SizeAllowed, Post, FillResting, RoundPrice, Round4;
    var st := State(acct, TwoOrders(1.0, 1));
    Affordable(cfg, acct.balance, 90.0);
    LimitWins(RoundPrice(90.0));
    SweepOne(cfg, st, 1, At(80.0));
  }

  // ---------------------------------------------------------------- the runs

  lemma RunsOne(cfg: Config, st: State, a: Event)
    ensures Run(cfg, st, [a]) == Step(cfg, st, a)
  {
    hide Step;
    assert Run(cfg, Step(cfg, st, a), []) == Step(cfg, st, a);
  }

  lemma RunsThree(cfg: Config, st: State, a: Event, b: Event, c: Event)
    ensures Run(cfg, st, [a, b, c]) == Step(cfg, Step(cfg, Step(cfg, st, a), b), c)
  {
    hide Step;
    assert [a, b, c][1..] == [b, c] && [b, c][1..] == [c] && [c][1..] == [];
    RunsOne(cfg, Step(cfg, Step(cfg, st, a), b), c);
  }

  /** Three units with one visible: two checks at 100 trade the two hidden ones and fill the order,
      which reports three. */
  lemma IcebergFills(cfg: Config)
    requires Plain(cfg)
    ensures var evs := [Submission(ICEBERG, 100.0, true), AdvancedCheck(At(100.0), 0.0), AdvancedCheck(At(100.0), 0.0)];
            var st := Run(cfg, Start(1000.0), evs);
            && 0 in st.desk.orders && st.desk.orders[0].status == Filled && st.desk.orders[0].filledQuantity == 3.0
            && Sum(st.acct.journal, OfOrder(0)) == 2.0
  {
    hide Submit, CheckAdvanced, Bought, Sum, OneOrder;
    var e1, e2 := Submission(ICEBERG, 100.0, true), AdvancedCheck(At(100.0), 0.0);
    var evs := [e1, e2, e2];
    SubmitsIceberg(cfg, 1000.0);
    FirstBuy(1000.0);
    ChecksIceberg(cfg, Opened(1000.0), 2.0, 0);
    LastSlice(cfg, Bought(0, Opened(1000.0), 100.0));
    RunsThree(cfg, Start(1000.0), e1, e2, e2);
    ReachableGood(cfg, 1000.0, evs);
    IcebergAccounting(1000.0, Run(cfg, Start(1000.0), evs), 0);
  }

  /** An iceberg is sliced once, then its sibling fills and cancels it: both have traded. */
  lemma TwoMembersTrade(cfg: Config)
    requires Plain(cfg)
    ensures var evs := [Submission(ICEBERG, 100.0, true), Submission(LIMIT, 100.0, true),
                        AdvancedCheck(At(100.0), 0.0), AdvancedCheck(At(80.0), 0.0)];
            var st := Run(cfg, Start(1000.0), evs);
            && 0 in st.desk.groups && st.desk.groups[0] == Group([0, 1], Some(1))
            && HasTraded(st, 0) && HasTraded(st, 1)
            && 0 in st.desk.orders && st.desk.orders[0].status == Cancelled
  {
    hide Submit, CheckAdvanced, Bought, HasTraded, TwoOrders, OneOrder;
    var e1, e2 := Submission(ICEBERG, 100.0, true), Submission(LIMIT, 100.0, true);
    var e3, e4 := AdvancedCheck(At(100.0), 0.0), AdvancedCheck(At(80.0), 0.0);
    var evs := [e1, e2, e3, e4];
    SubmitsIceberg(cfg, 1000.0);
    SubmitsLimit(cfg, Opened(1000.0));
    FirstBuy(1000.0);
    ChecksBoth(cfg, Opened(1000.0));
    ChecksLimit(cfg, Bought(0, Opened(1000.0), 100.0));
    assert evs[1..] == [e2, e3, e4];
    RunsThree(cfg, Step(cfg, Start(1000.0), e1), e2, e3, e4);
    ReachableGood(cfg, 1000.0, evs);
    var st := Run(cfg, Start(1000.0), evs);
    assert st.desk == LimitWon(RoundPrice(90.0));
    TradedIff(1000.0, st, 0);
    TradedIff(1000.0, st, 1);
  }
}
