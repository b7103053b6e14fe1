/** What the journal of an account says about the account: money is conserved, average-cost
    accounting agrees with the trades, and no trade at or worse than the mark gains equity. */
module Journal {
  import opened Basics
  import opened Accounts

  // ---------------------------------------------------------------- reading a journal

  function Cash(e: Entry): real
  {
    if e.Traded? then -(e.fill.price * Signed(e.fill.side, e.fill.quantity)) else 0.0
  }

  function Fee(e: Entry): real { if e.Traded? then e.fill.fee else 0.0 }
  function Funding(e: Entry): real { if e.Funded? then e.amount else 0.0 }

  function Weigh(k: Symbol -> real): Entry -> real
  {
    (e: Entry) => if e.Traded? then k(e.fill.symbol) * Signed(e.fill.side, e.fill.quantity) else 0.0
  }

  function Only(s: Symbol): Symbol -> real { (x: Symbol) => if x == s then 1.0 else 0.0 }

  function Sum(es: seq<Entry>, w: Entry -> real): real
  {
    if es == [] then 0.0 else Sum(es[..|es| - 1], w) + w(es[|es| - 1])
  }

  lemma SumOfAppend(es: seq<Entry>, e: Entry, w: Entry -> real)
    ensures Sum(es + [e], w) == Sum(es, w) + w(e)
  {
  }

  // ---------------------------------------------------------------- reconciliation

  predicate OnePerSymbol(ps: seq<Position>)
  {
    forall i, j :: 0 <= i < j < |ps| ==> ps[i].symbol != ps[j].symbol
  }

  /** Where the money is: cash, insurance fund and margins, against deposits, realised
      profit, fees and funding. */
  ghost predicate MoneyConserved(initial: real, a: Account)
  {
    a.balance + a.insurance + Total(Held(a), Margin)
      == initial + a.totalPnl - a.totalFees + Sum(a.journal, Funding)
  }

  /** Realised profit is the net cash of all trades plus the cost basis still held. */
  ghost predicate ProfitExact(a: Account)
  {
    a.totalPnl == Sum(a.journal, Cash) + Total(Held(a), Cost)
  }

  /** The holdings in a symbol are the net of the trades in it. */
  ghost predicate NetExact(a: Account, s: Symbol)
  {
    Total(Held(a), Exposure(Only(s))) == Sum(a.journal, Weigh(Only(s)))
  }

  ghost predicate Reconciled(initial: real, a: Account)
  {
    && MoneyConserved(initial, a)
    && ProfitExact(a)
    && a.totalFees == Sum(a.journal, Fee)
    && (forall s :: NetExact(a, s))
    && OnePerSymbol(a.positions)
    && a == Replayed(initial, a.journal)
  }

  lemma OpenedReconciled(initial: real)
    ensures Reconciled(initial, Opened(initial))
  {
  }

  /** Every posting keeps the account reconciled, with no assumption on the posting:
      adds, partial closes, flips, dust, funding and deficit cover alike. */
  lemma PostReconciled(initial: real, a: Account, e: Entry)
    requires Reconciled(initial, a)
    ensures Reconciled(initial, Post(a, e))
  {
    PostMoney(initial, a, e);
    PostProfit(a, e);
    PostFees(a, e);
    PostOnePerSymbol(a, e);
    forall s ensures NetExact(Post(a, e), s) {
      PostNet(a, e, s);
    }
  }

  /** The account a fill updates: fee and margin already taken. */
  function Charged(a: Account, f: Fill): Account
  {
    a.(balance := a.balance - f.fee - f.margin, totalFees := a.totalFees + f.fee)
  }

  lemma PostMoney(initial: real, a: Account, e: Entry)
    requires MoneyConserved(initial, a)
    ensures MoneyConserved(initial, Post(a, e))
  {
    SumOfAppend(a.journal, e, Funding);
    if e.Traded? {
      var b := Charged(a, e.fill);
      MarginAfterFill(b, e.fill);
      assert Held(b) == Held(a) && Held(Post(a, e)) == Held(UpdatePosition(b, e.fill));
    } else {
      assert Held(Post(a, e)) == Held(a);
    }
  }

  lemma ProfitStep(a: Account, r: Account, f: Fill)
    requires ProfitExact(a) && r.journal == a.journal + [Traded(f)]
    requires Total(Held(r), Cost)
          == Total(Held(a), Cost) + f.price * Signed(f.side, f.quantity) + (r.totalPnl - a.totalPnl)
    ensures ProfitExact(r)
  {
  }

  lemma PostProfit(a: Account, e: Entry)
    requires ProfitExact(a)
    ensures ProfitExact(Post(a, e))
  {
    hide UpdatePosition, Total, Cost;
    if e.Traded? {
      var b := Charged(a, e.fill);
      CostAfterFill(b, e.fill);
      FillLeaves(b, e.fill);
      assert Held(b) == Held(a) && Held(Post(a, e)) == Held(UpdatePosition(b, e.fill));
      ProfitStep(a, Post(a, e), e.fill);
    } else {
      SumOfAppend(a.journal, e, Cash);
      assert Held(Post(a, e)) == Held(a);
    }
  }

  lemma PostFees(a: Account, e: Entry)
    requires a.totalFees == Sum(a.journal, Fee)
    ensures Post(a, e).totalFees == Sum(Post(a, e).journal, Fee)
  {
  }

  lemma NetStep(a: Account, r: Account, f: Fill, s: Symbol)
    requires NetExact(a, s) && r.journal == a.journal + [Traded(f)]
    requires Total(Held(r), Exposure(Only(s)))
          == Total(Held(a), Exposure(Only(s))) + Only(s)(f.symbol) * Signed(f.side, f.quantity)
    ensures NetExact(r, s)
  {
  }

  lemma PostNet(a: Account, e: Entry, s: Symbol)
    requires NetExact(a, s)
    ensures NetExact(Post(a, e), s)
  {
    if e.Traded? {
      var b := Charged(a, e.fill);
      ExposureAfterFill(b, e.fill, Only(s));
      assert Held(b) == Held(a) && Held(Post(a, e)) == Held(UpdatePosition(b, e.fill));
      NetStep(a, Post(a, e), e.fill, s);
    } else {
      SumOfAppend(a.journal, e, Weigh(Only(s)));
      assert Held(Post(a, e)) == Held(a);
    }
  }

  lemma SpliceKeepsOnePerSymbol(ps: seq<Position>, gone: seq<Position>, qs: seq<Position>, i: nat,
                                added: seq<Position>, s: Symbol)
    requires i <= |ps| && Respliced(ps, gone, qs, i, added) && OnePerSymbol(ps)
    requires |added| <= 1 && (forall p :: p in added ==> p.symbol == s)
    requires (i < |ps| ==> ps[i].symbol == s) && (forall j :: 0 <= j < i ==> ps[j].symbol != s)
    ensures OnePerSymbol(qs)
  {
  }

  lemma PostOnePerSymbol(a: Account, e: Entry)
    requires OnePerSymbol(a.positions)
    ensures OnePerSymbol(Post(a, e).positions)
  {
    if e.Traded? {
      var f, b := e.fill, Charged(a, e.fill);
      var i, r := IndexOf(b.positions, f.symbol), UpdatePosition(b, f);
      FillSplices(b, f);
      var gone :| r.abandoned == b.abandoned + gone && Respliced(b.positions, gone, r.positions, i, Added(b, f));
      SpliceKeepsOnePerSymbol(b.positions, gone, r.positions, i, Added(b, f), f.symbol);
    }
  }

  // ---------------------------------------------------------------- positions by symbol

  function SignedPosition(ps: seq<Position>, s: Symbol): real
  {
    var i := IndexOf(ps, s);
    if i == |ps| then 0.0 else Signed(ps[i].side, ps[i].quantity)
  }

  lemma {:induction false} NetIsPosition(ps: seq<Position>, s: Symbol)
    requires OnePerSymbol(ps)
    ensures Total(ps, Exposure(Only(s))) == SignedPosition(ps, s)
  {
    if ps != [] {
      NetIsPosition(ps[1..], s);
      if ps[0].symbol == s {
        AbsentIsZero(ps[1..], s);
      }
    }
  }

  lemma {:induction false} AbsentIsZero(ps: seq<Position>, s: Symbol)
    requires forall i :: 0 <= i < |ps| ==> ps[i].symbol != s
    ensures SignedPosition(ps, s) == 0.0
  {
  }

  /** The position shown for a symbol is the sum of the signed trades in it, less the
      remainders of trades that were dropped as dust. */
  lemma PositionIsNetFills(initial: real, a: Account, s: Symbol)
    requires Reconciled(initial, a)
    ensures SignedPosition(a.positions, s) + Total(a.abandoned, Exposure(Only(s)))
         == Sum(a.journal, Weigh(Only(s)))
  {
    NetIsPosition(a.positions, s);
    TotalOfConcat(a.positions, a.abandoned, Exposure(Only(s)));
    assert NetExact(a, s);
  }

  // ---------------------------------------------------------------- dust

  /** A fill is cut short as dust exactly when it overshoots an opposite position by at
      most 1e-12. */
  lemma DustIff(a: Account, f: Fill)
    ensures var i := IndexOf(a.positions, f.symbol);
            (Settle(a, f).abandoned != a.abandoned
             <==> i < |a.positions| && a.positions[i].side != f.side
                  && 0.0 < f.quantity - a.positions[i].quantity <= DUST)
  {
  }

  /** The guard of the branch that forgets money: an opposite position, overshot by at most
      1e-12, and a fill that locked margin. */
  predicate DropsMargin(a: Account, f: Fill)
  {
    var i := IndexOf(a.positions, f.symbol);
    && i < |a.positions| && a.positions[i].side != f.side
    && 0.0 < f.quantity - a.positions[i].quantity <= DUST
    && f.margin != 0.0
  }

  /** The margin it forgets: the share of the part that overshoots. */
  function MarginDropped(a: Account, f: Fill): real
  {
    if !DropsMargin(a, f) then 0.0
    else f.margin - ShareOf(f.margin, a.positions[IndexOf(a.positions, f.symbol)].quantity, f.quantity)
  }

  /** Cash, insurance and the margins of the open positions, with profit and fees undone. */
  function OpenFunds(a: Account): real
  {
    a.balance + a.insurance + Total(a.positions, Margin) - a.totalPnl + a.totalFees
  }

  lemma DroppedShare(a: Account, f: Fill)
    ensures MarginDropped(a, f) != 0.0 <==> DropsMargin(a, f)
    ensures f.margin >= 0.0 ==> MarginDropped(a, f) >= 0.0
  {
    if DropsMargin(a, f) {
      ProperPart(f.margin, a.positions[IndexOf(a.positions, f.symbol)].quantity, f.quantity);
    }
  }

  lemma ProperPart(m: real, part: Qty, whole: Qty)
    requires part < whole
    ensures (m - ShareOf(m, part, whole) == 0.0 <==> m == 0.0) && (m >= 0.0 ==> m - ShareOf(m, part, whole) >= 0.0)
  {
    var r := part / whole;
    assert r * whole == part;
    assert m - ShareOf(m, part, whole) == m * (1.0 - r);
    assert r >= 1.0 ==> r * whole >= whole;
  }

  lemma AbandonedMargin(a: Account, f: Fill)
    ensures Total(UpdatePosition(a, f).abandoned, Margin) == Total(a.abandoned, Margin) + MarginDropped(a, f)
  {
    hide ShareOf;
    var i := IndexOf(a.positions, f.symbol);
    if i < |a.positions| && a.positions[i].side != f.side && 0.0 < f.quantity - a.positions[i].quantity <= DUST {
      var left := Residual(f, a.positions[i].quantity);
      assert UpdatePosition(a, f).abandoned == a.abandoned + [left];
      TotalOfConcat(a.abandoned, [left], Margin);
      assert Total([left], Margin) == left.margin;
      NoShareOfNothing(f, a.positions[i].quantity);
    }
  }

  lemma NoShareOfNothing(f: Fill, closed: Qty)
    ensures f.margin == 0.0 ==> f.margin - ShareOf(f.margin, closed, f.quantity) == 0.0
  {
  }

  /** A fill keeps the money over the open positions exactly unless it takes the branch that
      forgets margin, and then it loses just that margin. */
  lemma FillConservesIff(a: Account, f: Fill)
    ensures OpenFunds(Settle(a, f)) == OpenFunds(a) - MarginDropped(a, f)
    ensures OpenFunds(Settle(a, f)) == OpenFunds(a) <==> !DropsMargin(a, f)
  {
    hide UpdatePosition, Total, DropsMargin, MarginDropped;
    var b := Charged(a, f);
    var r := UpdatePosition(b, f);
    MarginAfterFill(b, f);
    FillLeaves(b, f);
    AbandonedMargin(b, f);
    DroppedShare(a, f);
    DropsAlike(a, b, f);
    TotalOfConcat(b.positions, b.abandoned, Margin);
    TotalOfConcat(r.positions, r.abandoned, Margin);
  }

  lemma DropsAlike(a: Account, b: Account, f: Fill)
    requires a.positions == b.positions
    ensures MarginDropped(a, f) == MarginDropped(b, f)
  {
  }

  /** A sale of 1 + 1e-12 against a long of 1 forgets a margin of 1e-12. */
  lemma DustWitness()
    ensures var f0 := Fill(0, 0, Buy, 1.0, 1.0, 0.0, 1.0, None, None);
            var f1 := Fill(1, 0, Sell, 1.0 + DUST, 1.0, 0.0, 1.0 + DUST, None, None);
            var a := Post(Post(Opened(10.0), Traded(f0)), Traded(f1));
            && a.positions == [] && a.balance == 10.0 - DUST
            && a.insurance == 0.0 && a.totalPnl == 0.0 && a.totalFees == 0.0
            && Post(Opened(10.0), Traded(f0)).balance == 9.0
  {
  }

  /** The account after all the postings of a journal. */
  function Replayed(initial: real, es: seq<Entry>): Account
  {
    if es == [] then Opened(initial) else Post(Replayed(initial, es[..|es| - 1]), es[|es| - 1])
  }

  /** Everything the fills of a journal made the exchange forget. */
  function Lost(initial: real, es: seq<Entry>): real
  {
    if es == [] then 0.0
    else
      var before, e := es[..|es| - 1], es[|es| - 1];
      Lost(initial, before) + (if e.Traded? then MarginDropped(Replayed(initial, before), e.fill) else 0.0)
  }

  /** Entry `k` is a trade that dropped margin when it was posted. */
  predicate DroppedAt(initial: real, es: seq<Entry>, k: nat)
    requires k < |es|
  {
    es[k].Traded? && DropsMargin(Replayed(initial, es[..k]), es[k].fill)
  }

  lemma {:induction false} ReplayedFunds(initial: real, es: seq<Entry>)
    ensures OpenFunds(Replayed(initial, es)) == initial + Sum(es, Funding) - Lost(initial, es)
  {
    hide Settle, Total, MarginDropped, DropsMargin;
    if es == [] {
      NothingOpen(initial);
    } else {
      var before, e := es[..|es| - 1], es[|es| - 1];
      ReplayedFunds(initial, before);
      if e.Traded? { FillConservesIff(Replayed(initial, before), e.fill); }
    }
  }

  lemma NothingOpen(initial: real)
    ensures OpenFunds(Opened(initial)) == initial
  {
  }

  /** With no negative margin nothing is lost exactly when no trade dropped any. */
  lemma {:induction false} LostIffDropped(initial: real, es: seq<Entry>)
    requires forall k :: 0 <= k < |es| && es[k].Traded? ==> es[k].fill.margin >= 0.0
    ensures Lost(initial, es) >= 0.0
    ensures Lost(initial, es) == 0.0 <==> forall k :: 0 <= k < |es| ==> !DroppedAt(initial, es, k)
  {
    hide Settle, MarginDropped, DropsMargin, Replayed;
    if es != [] {
      var n := |es| - 1;
      var before := es[..n];
      LostIffDropped(initial, before);
      forall k | 0 <= k < n ensures DroppedAt(initial, before, k) <==> DroppedAt(initial, es, k) {
        assert before[..k] == es[..k];
      }
      assert (forall k :: 0 <= k < |es| ==> !DroppedAt(initial, es, k))
        <==> (forall k :: 0 <= k < n ==> !DroppedAt(initial, before, k)) && !DroppedAt(initial, es, n);
      if es[n].Traded? { DroppedShare(Replayed(initial, before), es[n].fill); }
    }
  }

  // ---------------------------------------------------------------- equity at fixed marks

  function UnrealizedPnl(p: Position, mark: real): real
  {
    if p.side == Buy then (mark - p.entry) * p.quantity else (p.entry - mark) * p.quantity
  }

  function Worth(marks: Symbol -> real): Position -> real
  {
    (p: Position) => p.margin + UnrealizedPnl(p, marks(p.symbol))
  }

  /** The equity the account reports once its positions are marked. */
  function Equity(a: Account, marks: Symbol -> real): real
  {
    a.balance + Total(a.positions, Worth(marks))
  }

  /** A posting that cannot make money at these marks: a trade no better than the mark with
      a fee that is not negative, or insurance money. */
  predicate Harmless(marks: Symbol -> real, e: Entry)
  {
    match e
    case Traded(f) =>
      && f.fee >= 0.0
      && (f.side == Buy ==> f.price >= marks(f.symbol))
      && (f.side == Sell ==> f.price <= marks(f.symbol))
    case Funded(_) => false
    case Covered(_) => true
  }

  /** Equity with the insurance fund and the forgotten remainders counted in. */
  function Wealth(a: Account, marks: Symbol -> real): real
  {
    a.balance + a.insurance + Total(Held(a), Worth(marks))
  }

  /** What a trade is worth at the mark, over what was paid for it. */
  function Gap(f: Fill, mark: real): real
  {
    mark * Signed(f.side, f.quantity) - f.price * Signed(f.side, f.quantity)
  }

  /** Marked at `marks`, a fill moves the worth of the holdings by the margin it locked, less
      what it returned, plus its distance from the mark. */
  lemma WorthOfFill(a: Account, f: Fill, marks: Symbol -> real)
    ensures Total(Added(a, f), Worth(marks)) - Total(Removed(a, f), Worth(marks))
         == f.margin - Returned(a, f) + Gap(f, marks(f.symbol))
  {
    hide UpdatePosition, Total, Added, Removed, Signed;
    MarginOfFill(a, f);
    CostOfFill(a, f);
    ExposureOfFill(a, f, marks);
    WorthSplits(Added(a, f), marks);
    WorthSplits(Removed(a, f), marks);
  }

  lemma {:induction false} WorthSplits(ps: seq<Position>, marks: Symbol -> real)
    ensures Total(ps, Worth(marks)) == Total(ps, Margin) + Total(ps, Exposure(marks)) - Total(ps, Cost)
  {
    if ps != [] {
      WorthSplits(ps[1..], marks);
      assert UnrealizedPnl(ps[0], marks(ps[0].symbol)) == Exposure(marks)(ps[0]) - Cost(ps[0]);
    }
  }

  lemma WorthAfterFill(a: Account, f: Fill, marks: Symbol -> real)
    ensures Total(Held(UpdatePosition(a, f)), Worth(marks))
         == Total(Held(a), Worth(marks)) + f.margin - Returned(a, f) + Gap(f, marks(f.symbol))
  {
    FillMovesTotal(a, f, Worth(marks));
    WorthOfFill(a, f, marks);
  }

  lemma NoGain(a: Account, e: Entry, marks: Symbol -> real)
    requires Harmless(marks, e)
    ensures Wealth(Post(a, e), marks) <= Wealth(a, marks)
  {
    hide UpdatePosition, Total, Gap;
    if e.Traded? {
      var b := Charged(a, e.fill);
      WorthAfterFill(b, e.fill, marks);
      FillLeaves(b, e.fill);
      assert Held(b) == Held(a) && Held(Post(a, e)) == Held(UpdatePosition(b, e.fill));
      SideLoses(e.fill, marks(e.fill.symbol));
      assert Post(a, e).balance == b.balance + Returned(b, e.fill);
    } else {
      assert Held(Post(a, e)) == Held(a);
    }
  }

  lemma SideLoses(f: Fill, mark: real)
    requires f.side == Buy ==> f.price >= mark
    requires f.side == Sell ==> f.price <= mark
    ensures Gap(f, mark) <= 0.0
  {
  }
}
