/** The exchange object: orders, books, groups and counters updated in place, loops over
    snapshots of the books, removal of finished entries after each loop.  Every public
    method is proved to take the exchange from its old state to the one `Engine` gives. */
module Exchange {
  import opened Basics
  import opened Rounding
  import opened Accounts
  import opened Journal
  import opened Desk
  import opened Engine
  import opened Runs
  import opened DeferredRemoval
  import opened PositionLifecycle
  import opened PriceHistory

  datatype BookName = LimitBook | StopBook | TrailBook | IcebergBook

  class SimulatedExchange {
    const cfg: Config
    const account: AccountBook
    var next: nat
    var orders: map<nat, Order>
    var limits: seq<nat>
    var stops: seq<nat>
    var trails: seq<nat>
    var icebergs: seq<nat>
    var groups: map<GroupId, Group>
    var counts: Counts
    ghost const initial: real

    ghost function DeskNow(): Desk
      reads this
    {
      Desk(next, orders, Books(limits, stops, trails, icebergs), groups, counts)
    }

    ghost function Now(): State
      reads this, account
    {
      State(account.View(), DeskNow())
    }

    ghost predicate Valid()
      reads this, account, account.positions
    {
      account.Valid() && Good(initial, Now())
    }

    constructor (cfg: Config, initial: real)
      ensures Valid() && Now() == Start(initial) && this.cfg == cfg && this.initial == initial
      ensures fresh(account) && account.positions == []
    {
      this.cfg, this.initial := cfg, initial;
      account := new AccountBook(initial);
      next, orders, groups, counts := 0, map[], map[], Counts(0, 0, 0, 0);
      limits, stops, trails, icebergs := [], [], [], [];
      new;
      StartGood(initial);
    }

    // -------------------------------------------------------------- order objects

    /** Assigning an order's status: the listener counts a change. */
    method SetOrderStatus(id: nat, s: Status)
      requires id in orders
      modifies this`orders, this`counts
      ensures DeskNow() == SetStatus(old(DeskNow()), id, s)
    {
      var o := orders[id];
      if o.watched && o.status != s {
        counts := Count(counts, s);
      }
      orders := orders[id := o.(status := s)];
    }

    /** Appending to the order history. */
    method AppendHistory(id: nat)
      requires id in orders
      modifies this`orders, this`counts
      ensures DeskNow() == Append(old(DeskNow()), id)
    {
      counts := Count(counts.(submitted := counts.submitted + 1), orders[id].status);
      orders := orders[id := orders[id].(watched := true)];
    }

    /** Removes an order from whichever book has it. */
    method PopEverywhere(id: nat)
      modifies this`limits, this`stops, this`trails, this`icebergs
      ensures DeskNow() == old(DeskNow()).(books := Drop(old(DeskNow()).books, id))
    {
      stops := Remove(stops, id);
      trails := Remove(trails, id);
      icebergs := Remove(icebergs, id);
      limits := Remove(limits, id);
    }

    /** Marks the fill of a group: every other pending member is cancelled first, and only
        then are the cancelled ones taken out of the books. */
    method ResolveOco(id: nat)
      requires id in orders
      modifies this`orders, this`counts, this`groups, this`limits, this`stops, this`trails, this`icebergs
      ensures DeskNow() == Resolve(old(DeskNow()), id) && next == old(next)
    {
      hide CancelSiblings, CancelResting, Drop, PurgeAll;
      var g := orders[id].group;
      if g.None? || g.value !in groups || groups[g.value].winner.Some? {
        return;
      }
      var members := groups[g.value].members;
      groups := groups[g.value := groups[g.value].(winner := Some(id))];
      ghost var marked := DeskNow();
      assert marked == old(DeskNow()).(groups := groups);

      var cancelled: seq<nat> := [];
      var i := 0;
      NothingPurged(marked);
      assert members[0..] == members;
      while i < |members|
        invariant 0 <= i <= |members|
        invariant CancelSiblings(PurgeDesk(DeskNow(), cancelled), members[i..], id)
               == CancelSiblings(marked, members, id)
      {
        var m := members[i];
        ghost var before := DeskNow();
        SiblingStep(before, members[i..], id, cancelled);
        assert members[i..][1..] == members[i + 1..];
        if m != id && m in orders && orders[m].status == Pending {
          SetOrderStatus(m, Cancelled);
          cancelled := cancelled + [m];
        }
        i := i + 1;
      }
      assert members[i..] == [];
      SiblingEnd(PurgeDesk(DeskNow(), cancelled), id);
      PopAllEverywhere(cancelled);
    }

    method PopAllEverywhere(ids: seq<nat>)
      modifies this`limits, this`stops, this`trails, this`icebergs
      ensures DeskNow() == PurgeDesk(old(DeskNow()), ids)
    {
      hide Drop;
      ghost var listed := DeskNow();
      var i := 0;
      while i < |ids|
        invariant 0 <= i <= |ids|
        invariant DeskNow() == PurgeDesk(listed, ids[..i])
      {
        PurgeOneMore(listed.books, ids[..i], ids[i]);
        assert ids[..i + 1] == ids[..i] + [ids[i]];
        PopEverywhere(ids[i]);
        i := i + 1;
      }
      assert ids[..i] == ids;
    }

    // -------------------------------------------------------------- resting orders

    /** Fills a resting order at `price`, or rejects it (appending it to the history again)
        when the margin or size check fails.  The entry stays in its book for now. */
    method ExecuteResting(id: nat, price: real)
      requires account.Valid() && IsPending(DeskNow(), id)
      modifies this, account, account.positions
      ensures account.Valid()
      ensures fresh(account.Objects() - old(account.Objects()))
      ensures Purged(Now(), [id]) == Execute(cfg, old(Now()), id, old(orders[id].terms), price)
      ensures Shrunk(old(DeskNow().books), DeskNow().books)
    {
      hide Resolve, Drop, Post, RoundPrice, Round4, FeeOf, Lever, Count, Notional, AccountBook.Valid;
      ghost var d := DeskNow();
      var o := orders[id];
      var notional := Notional(price, o.quantity);
      var f := RestingFill(cfg, id, o, o.quantity, price);
      RejectsLater(d, id);
      FillsLater(d, id, f.price, f.fee);
      if !MarginCovers(cfg, account.balance, notional) || !SizeAllowed(cfg, account.balance, notional) {
        SetOrderStatus(id, Rejected);
        AppendHistory(id);
      } else {
        SetOrderStatus(id, Filled);
        orders := orders[id := orders[id].(filledPrice := f.price, filledQuantity := o.quantity, fee := f.fee)];
        ghost var x := DeskNow();
        account.Settle(f);
        ResolveOco(id);
        ResolveShrinks(x, id);
      }
    }

    /** Works one slice of an iceberg; says whether it was the last. */
    method WorkIceberg(id: nat, price: real) returns (done: bool)
      requires account.Valid() && IsPending(DeskNow(), id) && orders[id].terms.Iceberg? && orders[id].terms.hidden > 0.0
      modifies this, account, account.positions
      ensures account.Valid()
      ensures fresh(account.Objects() - old(account.Objects()))
      ensures (if done then Purged(Now(), [id]) else Now()) == Slice(cfg, old(Now()), id, price)
      ensures Shrunk(old(DeskNow().books), DeskNow().books)
    {
      hide Resolve, Drop, Post, RoundPrice, Round4, FeeOf, Lever, Count, Notional, AccountBook.Valid;
      ghost var d := DeskNow();
      var o := orders[id];
      var quantity: Qty := Min(o.terms.visible, o.terms.hidden);
      var notional := Notional(price, quantity);
      if !MarginCovers(cfg, account.balance, notional) || !SizeAllowed(cfg, account.balance, notional) {
        counts := CountSubmitted(counts, Rejected);
        return false;
      }
      var f := RestingFill(cfg, id, o, quantity, price);
      var t := o.terms.(hidden := o.terms.hidden - quantity, slices := o.terms.slices + 1);
      orders := orders[id := o.(terms := t)];
      account.Settle(f);
      if t.hidden > 0.0 {
        return false;
      }
      FillsLater(DeskNow(), id, o.filledPrice, o.fee);
      FillRetuned(d, id, t, o.filledPrice, o.quantity, o.fee);
      SetOrderStatus(id, Filled);
      orders := orders[id := orders[id].(filledQuantity := o.quantity)];
      ghost var x := DeskNow();
      ResolveOco(id);
      ResolveShrinks(x, id);
      return true;
    }

    // -------------------------------------------------------------- one entry of a book

    /** What the body of a checking loop does with one entry: either the order is done with
        (to be popped after the loop), or the tick is complete. */
    method WorkLimit(id: nat, price: real, now: real, ghost prices: Symbol -> real) returns (finished: bool)
      requires account.Valid() && IsPending(DeskNow(), id) && orders[id].terms.AtLimit?
      requires prices(orders[id].symbol) == price
      modifies this, account, account.positions
      ensures account.Valid()
      ensures fresh(account.Objects() - old(account.Objects()))
      ensures (if finished then Purged(Now(), [id]) else Now()) == Tick(cfg, old(Now()), id, prices, now)
      ensures Shrunk(old(DeskNow().books), DeskNow().books)
    {
      hide Execute, PurgeAll, Marketable, CancelResting, AccountBook.Valid;
      var o := orders[id];
      if o.terms.expireTs.Some? && now >= o.terms.expireTs.value {
        CancelsLater(DeskNow(), id);
        SetOrderStatus(id, Cancelled);
        return true;
      }
      if price == 0.0 || !Marketable(o.side, price, o.terms.price) {
        return false;
      }
      ExecuteResting(id, o.terms.price);
      return true;
    }

    method WorkStopLimit(id: nat, price: real, now: real, ghost prices: Symbol -> real) returns (finished: bool)
      requires account.Valid() && IsPending(DeskNow(), id) && orders[id].terms.StopLimit?
      requires prices(orders[id].symbol) == price
      modifies this, account, account.positions
      ensures account.Valid()
      ensures fresh(account.Objects() - old(account.Objects()))
      ensures (if finished then Purged(Now(), [id]) else Now()) == Tick(cfg, old(Now()), id, prices, now)
      ensures Shrunk(old(DeskNow().books), DeskNow().books)
    {
      hide Execute, PurgeAll, Marketable, StopReached, AccountBook.Valid;
      var o := orders[id];
      if price == 0.0 {
        return false;
      }
      ghost var st := Now();
      var t := o.terms.(triggered := o.terms.triggered || StopReached(o.side, price, o.terms.stop));
      orders := orders[id := o.(terms := t)];
      ExecuteRetuned(cfg, st, id, t, t.limit);
      if t.triggered && Marketable(o.side, price, t.limit) {
        ExecuteResting(id, t.limit);
        return true;
      }
      return false;
    }

    method WorkTrailing(id: nat, price: real, now: real, ghost prices: Symbol -> real) returns (finished: bool)
      requires account.Valid() && IsPending(DeskNow(), id) && orders[id].terms.Trailing?
      requires prices(orders[id].symbol) == price
      modifies this, account, account.positions
      ensures account.Valid()
      ensures fresh(account.Objects() - old(account.Objects()))
      ensures (if finished then Purged(Now(), [id]) else Now()) == Tick(cfg, old(Now()), id, prices, now)
      ensures Shrunk(old(DeskNow().books), DeskNow().books)
    {
      hide Execute, PurgeAll, Advance, StopReached, Slipped, AccountBook.Valid;
      var o := orders[id];
      if price == 0.0 {
        return false;
      }
      ghost var st := Now();
      var t := Advance(o.terms, o.side, price);
      AdvanceTrails(o.terms, o.side, price);
      orders := orders[id := o.(terms := t)];
      ExecuteRetuned(cfg, st, id, t, Slipped(cfg, o.side, price));
      if StopReached(o.side, price, t.level) {
        ExecuteResting(id, Slipped(cfg, o.side, price));
        return true;
      }
      return false;
    }

    method WorkHidden(id: nat, price: real, now: real, ghost prices: Symbol -> real) returns (finished: bool)
      requires account.Valid() && IsPending(DeskNow(), id) && orders[id].terms.Iceberg?
      requires prices(orders[id].symbol) == price
      modifies this, account, account.positions
      ensures account.Valid()
      ensures fresh(account.Objects() - old(account.Objects()))
      ensures (if finished then Purged(Now(), [id]) else Now()) == Tick(cfg, old(Now()), id, prices, now)
      ensures Shrunk(old(DeskNow().books), DeskNow().books)
    {
      hide Slice, PurgeAll, Marketable, AccountBook.Valid;
      var o := orders[id];
      if price == 0.0 || o.terms.hidden <= 0.0 {
        return false;
      }
      var fillPrice := price;
      if o.terms.floor.Some? {
        if !Marketable(o.side, price, o.terms.floor.value) {
          return false;
        }
        fillPrice := o.terms.floor.value;
      }
      finished := WorkIceberg(id, fillPrice);
    }

    // -------------------------------------------------------------- the four checks

    function Entries(book: BookName): seq<nat>
      reads this
    {
      EntriesOf(Books(limits, stops, trails, icebergs), book)
    }

    /** One checking loop: over a snapshot of the book, skipping orders that a sibling's fill
        has cancelled meanwhile, with the finished entries popped at the end. */
    method CheckBook(book: BookName, prices: Symbol -> real, now: real)
      requires Valid()
      modifies this, account, account.positions
      ensures Valid() && Now() == Sweep(cfg, old(Now()), old(Entries(book)), prices, now)
      ensures fresh(account.Objects() - old(account.Objects()))
    {
      hide Good, Keeps, Sweep, Tick, PurgeAll, Shrunk, AccountBook.Valid;
      ghost var start := Now();
      var snapshot := Entries(book);
      var finished: seq<nat> := [];
      var i := 0;
      NothingPurged(DeskNow());
      ShrunkRefl(DeskNow().books);
      assert snapshot[0..] == snapshot;
      NothingKeeps(initial, start);
      while i < |snapshot|
        invariant 0 <= i <= |snapshot|
        invariant account.Valid()
        invariant fresh(account.Objects() - old(account.Objects()))
        invariant Keeps(initial, start, Purged(Now(), finished))
        invariant Sweep(cfg, Purged(Now(), finished), snapshot[i..], prices, now)
               == Sweep(cfg, start, snapshot, prices, now)
        invariant forall x :: x in finished ==> x in snapshot
        invariant Shrunk(start.desk.books, DeskNow().books)
      {
        var id := snapshot[i];
        ghost var before := Now();
        assert id in snapshot;
        SnapshotEntry(initial, start, before, finished, book, id);
        KeepsGood(initial, start, Purged(before, finished));
        assert snapshot[i..][0] == id && snapshot[i..][1..] == snapshot[i + 1..];
        var done := true;
        if orders[id].status == Pending {
          var price := prices(orders[id].symbol);
          match book {
            case LimitBook => done := WorkLimit(id, price, now, prices);
            case StopBook => done := WorkStopLimit(id, price, now, prices);
            case TrailBook => done := WorkTrailing(id, price, now, prices);
            case IcebergBook => done := WorkHidden(id, price, now, prices);
          }
        }
        Continues(cfg, initial, before, Now(), finished, snapshot[i..], prices, now, done);
        KeepsTrans(initial, start, Purged(before, finished), Purged(Now(), if done then finished + [id] else finished));
        ShrunkTrans(start.desk.books, before.desk.books, DeskNow().books);
        if done {
          finished := finished + [id];
        }
        i := i + 1;
      }
      assert snapshot[i..] == [];
      SweepNothing(cfg, Purged(Now(), finished), prices, now);
      KeepsGood(initial, start, Purged(Now(), finished));
      OnlyInOwnBook(initial, start, DeskNow().books, book, finished);
      PopFinished(book, finished);
    }

    /** Pops the finished entries of one book. */
    method PopFinished(book: BookName, ids: seq<nat>)
      requires forall b, x :: b != book && x in ids ==> x !in Entries(b)
      modifies this`limits, this`stops, this`trails, this`icebergs
      ensures DeskNow() == PurgeDesk(old(DeskNow()), ids)
    {
      hide Drop;
      ghost var listed := DeskNow();
      NothingPurged(listed);
      assert ids[..0] == [];
      var i := 0;
      while i < |ids|
        invariant 0 <= i <= |ids|
        invariant DeskNow() == PurgeDesk(listed, ids[..i])
        invariant forall b, x :: b != book && x in ids ==> x !in Entries(b)
      {
        PurgeOneMore(listed.books, ids[..i], ids[i]);
        assert ids[..i + 1] == ids[..i] + [ids[i]];
        assert ids[i] in ids;
        PopFrom(book, ids[i]);
        i := i + 1;
      }
      assert ids[..i] == ids;
    }

    method PopFrom(book: BookName, id: nat)
      requires forall b :: b != book ==> id !in Entries(b)
      modifies this`limits, this`stops, this`trails, this`icebergs
      ensures DeskNow() == old(DeskNow()).(books := Drop(old(DeskNow()).books, id))
      ensures forall b :: b != book ==> Entries(b) == old(Entries(b))
    {
      if book != LimitBook { assert id !in Entries(LimitBook); RemoveAbsent(limits, id); }
      if book != StopBook { assert id !in Entries(StopBook); RemoveAbsent(stops, id); }
      if book != TrailBook { assert id !in Entries(TrailBook); RemoveAbsent(trails, id); }
      if book != IcebergBook { assert id !in Entries(IcebergBook); RemoveAbsent(icebergs, id); }
      match book {
        case LimitBook => limits := Remove(limits, id);
        case StopBook => stops := Remove(stops, id);
        case TrailBook => trails := Remove(trails, id);
        case IcebergBook => icebergs := Remove(icebergs, id);
      }
    }

    /** Checks every resting order against the current prices. */
    method CheckAdvancedOrders(prices: Symbol -> real, now: real)
      requires Valid()
      modifies this, account, account.positions
      ensures Valid() && Now() == CheckAdvanced(cfg, old(Now()), prices, now)
      ensures fresh(account.Objects() - old(account.Objects()))
    {
      hide Good, Sweep, AccountBook.Valid;
      CheckBook(LimitBook, prices, now);
      CheckBook(StopBook, prices, now);
      CheckBook(TrailBook, prices, now);
      CheckBook(IcebergBook, prices, now);
    }

    // -------------------------------------------------------------- cancels

    /** Cancels a resting order, in whichever book it is found. */
    method Cancel(id: nat) returns (found: bool)
      requires Valid()
      modifies this
      ensures Valid() && Now() == old(Now()).(desk := Engine.Cancel(old(DeskNow()), id))
      ensures found <==> old(IsPending(DeskNow(), id))
    {
      hide Good, Keeps, CancelResting, Drop, Count, AccountBook.Valid;
      var books := [LimitBook, StopBook, TrailBook, IcebergBook];
      ghost var st := Now();
      BooksTell(initial, st, id);
      var i := 0;
      while i < |books|
        invariant 0 <= i <= |books|
        invariant Valid() && Now() == st
        invariant forall j :: 0 <= j < i ==> id !in Entries(books[j])
      {
        var book := books[i];
        if id in Entries(book) {
          CancelKeeps(initial, st, id);
          CancelIsPop(DeskNow(), id);
          KeepsGood(initial, st, st.(desk := CancelResting(st.desk, id)));
          PopFrom(book, id);
          SetOrderStatus(id, Cancelled);
          return true;
        }
        i := i + 1;
      }
      forall b: BookName ensures id !in EntriesOf(st.desk.books, b) {
        match b {
          case LimitBook => assert books[0] == b;
          case StopBook => assert books[1] == b;
          case TrailBook => assert books[2] == b;
          case IcebergBook => assert books[3] == b;
        }
      }
      return false;
    }

    /** Cancels the entries of one book, or those of one symbol. */
    method CancelBook(book: BookName, symbol: Option<Symbol>)
      requires Valid()
      modifies this
      ensures Valid() && Now() == old(Now()).(desk := CancelAll(old(DeskNow()), old(Entries(book)), symbol))
    {
      hide Good, Keeps, CancelResting, CancelAll, Drop, Count, AccountBook.Valid;
      ghost var start := Now();
      var snapshot := Entries(book);
      var i := 0;
      assert snapshot[0..] == snapshot;
      SnapshotPending(initial, start, book);
      while i < |snapshot|
        invariant 0 <= i <= |snapshot|
        invariant account.Valid() && account.View() == start.acct && Good(initial, Now())
        invariant forall j :: i <= j < |snapshot| ==> IsPending(DeskNow(), snapshot[j]) && snapshot[j] in Entries(book)
        invariant CancelAll(DeskNow(), snapshot[i..], symbol) == CancelAll(start.desk, snapshot, symbol)
      {
        var id := snapshot[i];
        ghost var before := Now();
        assert snapshot[i..][0] == id && snapshot[i..][1..] == snapshot[i + 1..];
        CancelAllStep(DeskNow(), snapshot[i..], symbol);
        if symbol.None? || orders[id].symbol == symbol.value {
          BooksTell(initial, before, id);
          CancelKeeps(initial, before, id);
          CancelIsPop(DeskNow(), id);
          KeepsGood(initial, before, before.(desk := CancelResting(before.desk, id)));
          CancelSpares(before.desk, id, book);
          PopFrom(book, id);
          SetOrderStatus(id, Cancelled);
          assert DeskNow() == CancelResting(before.desk, id);
        }
        i := i + 1;
      }
      assert snapshot[i..] == [];
      CancelNothing(DeskNow(), symbol);
    }

    /** Cancels every resting order, or those of one symbol. */
    method CancelAllOrders(symbol: Option<Symbol>)
      requires Valid()
      modifies this
      ensures Valid() && Now() == old(Now()).(desk := CancelAll(old(DeskNow()), Resting(old(DeskNow()).books), symbol))
    {
      hide Good, CancelAll, AccountBook.Valid;
      ghost var d := DeskNow();
      CancelByBooks(initial, Now(), symbol);
      CancelBook(LimitBook, symbol);
      CancelBook(StopBook, symbol);
      CancelBook(TrailBook, symbol);
      CancelBook(IcebergBook, symbol);
    }

    // -------------------------------------------------------------- submission

    /** A new order object, member of its group but not yet in the history or a book. */
    method Store(o: Order) returns (id: nat)
      modifies this`next, this`orders, this`groups
      ensures id == old(next) && id in orders
      ensures DeskNow() == old(DeskNow()).(next := id + 1, orders := old(orders)[id := o],
                                           groups := Join(old(groups), o.group, id))
    {
      id := next;
      next := next + 1;
      orders := orders[id := o];
      if o.group.Some? {
        var g := o.group.value;
        var group := if g in groups then groups[g] else Group([], None);
        assert [] + [id] == [id];
        groups := groups[g := group.(members := group.members + [id])];
      }
    }

    /** Gives a new order its first status, files it in its book if it rests, and appends it
        to the history. */
    method Conclude(id: nat, s: Status)
      requires id in orders && !orders[id].watched && orders[id].status == Pending && s != Filled
      modifies this`orders, this`counts, this`limits, this`stops, this`trails, this`icebergs
      ensures DeskNow() == Concluded(old(DeskNow()), id, s)
    {
      SetOrderStatus(id, s);
      if s == Pending {
        match orders[id].terms {
          case Immediate =>
          case AtLimit(_, _) => limits := limits + [id];
          case StopLimit(_, _, _) => stops := stops + [id];
          case Trailing(_, _, _, _, _, _) => trails := trails + [id];
          case Iceberg(_, _, _, _) => icebergs := icebergs + [id];
        }
      }
      AppendHistory(id);
    }

    method SubmitOrder(req: Request, mid: real, depthCovers: bool)
      requires Valid()
      modifies this, account, account.positions
      ensures Valid() && Now() == Submit(cfg, old(Now()), req, mid, depthCovers)
      ensures fresh(account.Objects() - old(account.Objects()))
    {
      hide Good, Keeps, Refuses, NewOrder, Enter, Join, MarketPrice, Marketable, FillNow, Registered, Concluded,
           AccountBook.Valid, CountSubmitted, Shelve;
      ghost var st := Now();
      SubmitGood(cfg, initial, st, req, mid, depthCovers);
      if Refuses(req).Some? {
        next := next + 1;
        counts := CountSubmitted(counts, Rejected);
        return;
      }
      var o := NewOrder(req);
      var terms := o.terms;
      NewOrderPlain(req);
      var resolved := o.group.Some? && o.group.value in groups && groups[o.group.value].winner.Some?;
      if !resolved && mid != 0.0 && !terms.Immediate? && !terms.AtLimit? {
        o := o.(terms := Registered(o.terms, o.side, mid));
      }
      var id := Store(o);
      EnterConcludes(st.desk, o, Cancelled);
      EnterConcludes(st.desk, o, Rejected);
      EnterConcludes(st.desk, o, Pending);
      if resolved {
        Conclude(id, Cancelled);
      } else if mid == 0.0 {
        Conclude(id, Rejected);
      } else if terms.Immediate? {
        SubmitFills(cfg, st, req, o, mid, depthCovers);
        FillOrder(st, id, req, o, MarketPrice(cfg, mid, o.side, o.quantity), mid);
      } else if terms.AtLimit? {
        RouteLimit(st, id, req, o, mid, depthCovers);
      } else {
        Conclude(id, Pending);
      }
    }

    /** Decides a priced limit order's fate: fill, rest, cancel or reject. */
    method RouteLimit(ghost st: State, id: nat, req: Request, o: Order, mid: real, depthCovers: bool)
      requires account.Valid() && account.View() == st.acct && id == st.desk.next
      requires Refuses(req).None? && o == NewOrder(req) && o.terms.AtLimit? && Unresolved(st.desk, o.group)
      requires mid != 0.0
      requires DeskNow() == StoredDesk(st.desk, o) && o.status == Pending && !o.watched
      modifies this, account, account.positions
      ensures account.Valid() && Now() == Submit(cfg, st, req, mid, depthCovers)
      ensures fresh(account.Objects() - old(account.Objects()))
    {
      hide Refuses, NewOrder, Enter, Join, MarketPrice, Marketable, FillNow, Concluded, AccountBook.Valid,
           CountSubmitted, Shelve, Unresolved;
      EnterConcludes(st.desk, o, Cancelled);
      EnterConcludes(st.desk, o, Rejected);
      EnterConcludes(st.desk, o, Pending);
      if Marketable(o.side, MarketPrice(cfg, mid, o.side, o.quantity), o.terms.price) {
        if req.postOnly {
          Conclude(id, Rejected);
        } else if req.tif == FOK && !depthCovers {
          Conclude(id, Cancelled);
        } else {
          FillOrder(st, id, req, o, o.terms.price, mid);
        }
      } else if req.tif == IOC || req.tif == FOK {
        Conclude(id, Cancelled);
      } else {
        Conclude(id, Pending);
      }
    }

    /** Fills a new order at once, or rejects it on its margin or size. */
    method FillOrder(ghost st: State, id: nat, req: Request, o: Order, price: real, mid: real)
      requires account.Valid() && account.View() == st.acct && id == st.desk.next
      requires DeskNow() == StoredDesk(st.desk, o) && o.status == Pending && !o.watched
      modifies this, account, account.positions
      ensures account.Valid() && Now() == FillNow(cfg, st, req, o, price, mid)
      ensures fresh(account.Objects() - old(account.Objects()))
    {
      hide Enter, Join, Post, Resolve, RoundPrice, Averaged, Round4, FeeOf, Lever, Notional, Count, AccountBook.Valid;
      var notional := Notional(price, o.quantity);
      EnterConcludes(st.desk, o, Rejected);
      if !req.forceClose && !MarginCovers(cfg, account.balance, notional) {
        Conclude(id, Rejected);
        return;
      }
      if !req.forceClose && !SizeAllowed(cfg, account.balance, Notional(mid, o.quantity)) {
        Conclude(id, Rejected);
        return;
      }
      var f := ImmediateFill(cfg, id, req, o, price);
      EnterFills(st.desk, o, f.price, Round4(f.fee));
      SetOrderStatus(id, Filled);
      orders := orders[id := orders[id].(filledPrice := f.price, filledQuantity := o.quantity, fee := Round4(f.fee))];
      account.Settle(f);
      AppendHistory(id);
      ResolveOco(id);
    }

    // -------------------------------------------------------------- forced closes, funding

    /** Collects the triggered positions first, then closes them one by one. */
    method CheckStopLossTakeProfit(prices: Symbol -> real)
      requires Valid()
      modifies this, account, account.positions
      ensures Valid() && Now() == CheckStops(cfg, old(Now()), prices)
      ensures fresh(account.Objects() - old(account.Objects()))
    {
      hide Good, CloseTriggered, Triggers, AccountBook.Valid;
      ghost var start := Now();
      var triggered := CollectTriggers(prices);
      var i := 0;
      assert triggered[0..] == triggered;
      while i < |triggered|
        invariant 0 <= i <= |triggered|
        invariant Valid() && fresh(account.Objects() - old(account.Objects()))
        invariant CloseAll(cfg, Now(), triggered[i..], prices) == CloseAll(cfg, start, triggered, prices)
      {
        var t := triggered[i];
        ghost var before := Now();
        assert triggered[i..][0] == t && triggered[i..][1..] == triggered[i + 1..];
        CloseOne(t, prices(t.symbol));
        i := i + 1;
      }
      assert triggered[i..] == [];
    }

    method CloseOne(t: Trigger, price: real)
      requires Valid()
      modifies this, account, account.positions
      ensures Valid() && Now() == CloseTriggered(cfg, old(Now()), t, price)
      ensures fresh(account.Objects() - old(account.Objects()))
    {
      hide Good, Keeps, Submit, Cover, CloseRequest, AccountBook.Valid;
      ghost var before := Now();
      CloseTriggeredKeeps(cfg, initial, before, t, price);
      KeepsGood(initial, before, CloseTriggered(cfg, before, t, price));
      SubmitOrder(CloseRequest(t), price, true);
      if t.reason == Liquidation {
        account.CoverDeficit();
      }
    }

    method CollectTriggers(prices: Symbol -> real) returns (triggered: seq<Trigger>)
      requires Valid()
      modifies account.positions
      ensures Valid() && triggered == Triggers(cfg, account.values, prices)
    {
      hide Good, TriggerOf, Triggers, Indexed, Now, UnrealizedPnl;
      triggered := [];
      var i := 0;
      assert account.values[0..] == account.values;
      while i < |account.positions|
        invariant 0 <= i <= |account.positions|
        invariant Valid()
        invariant triggered + Triggers(cfg, account.values[i..], prices) == Triggers(cfg, account.values, prices)
      {
        var p := account.positions[i];
        var price := prices(p.symbol);
        p.UpdatePnl(price);
        var t := TriggerOf(cfg, p.Value(), price);
        TriggersStep(cfg, account.values[i..], prices, triggered);
        assert account.values[i..][0] == p.Value() && account.values[i..][1..] == account.values[i + 1..];
        if t.Some? {
          triggered := triggered + [t.value];
        }
        i := i + 1;
      }
      NoTriggers(cfg, prices);
      assert account.values[i..] == [] && triggered + [] == triggered;
    }

    method ChargeFunding(prices: Symbol -> real, rate: real)
      requires Valid()
      modifies account
      ensures Valid()
      ensures Now() == old(Now()).(acct := Accounts.ChargeFunding(old(account.View()), old(account.View()).positions,
                                                                  prices, rate))
    {
      hide Good, Keeps, Accounts.ChargeFunding;
      ghost var st := Now();
      FundingKeeps(initial, st, st.acct.positions, prices, rate);
      KeepsGood(initial, st, st.(acct := Accounts.ChargeFunding(st.acct, st.acct.positions, prices, rate)));
      account.ChargeFunding(prices, rate);
    }
  }

  lemma TriggersStep(cfg: Config, ps: seq<Position>, prices: Symbol -> real, found: seq<Trigger>)
    requires ps != []
    ensures var t := TriggerOf(cfg, ps[0], prices(ps[0].symbol));
            found + Triggers(cfg, ps, prices)
            == (if t.Some? then found + [t.value] else found) + Triggers(cfg, ps[1..], prices)
  {
    hide TriggerOf;
    var t, rest := TriggerOf(cfg, ps[0], prices(ps[0].symbol)), Triggers(cfg, ps[1..], prices);
    if t.Some? {
      assert found + ([t.value] + rest) == found + [t.value] + rest;
    } else {
      assert [] + rest == rest;
    }
  }

  lemma NoTriggers(cfg: Config, prices: Symbol -> real)
    ensures Triggers(cfg, [], prices) == []
  {
  }

  // ---------------------------------------------------------------- lemmas on submission

  /** A new order stored, with its group joined. */
  function StoredDesk(d: Desk, o: Order): Desk
  {
    d.(next := d.next + 1, orders := d.orders[d.next := o], groups := Join(d.groups, o.group, d.next))
  }

  function Concluded(d: Desk, id: nat, s: Status): Desk
    requires id in d.orders
  {
    d.(orders := d.orders[id := d.orders[id].(status := s, watched := true)],
       books := if s == Pending then Shelve(d.books, id, d.orders[id].terms) else d.books,
       counts := CountSubmitted(d.counts, s))
  }

  lemma EnterConcludes(d: Desk, o: Order, s: Status)
    requires s != Filled && o.status == Pending
    ensures Enter(d, o.(status := s)) == Concluded(StoredDesk(d, o), d.next, s)
  {
  }

  /** Filling the stored order, appending it and resolving its group is entering it filled. */
  lemma EnterFills(d: Desk, o: Order, price: real, fee: real)
    requires o.status == Pending && !o.watched
    ensures var id := d.next;
            var e := SetStatus(StoredDesk(d, o), id, Filled);
            var x := e.(orders := e.orders[id := e.orders[id].(filledPrice := price, filledQuantity := o.quantity,
                                                               fee := fee)]);
            var p := o.(status := Filled, filledPrice := price, filledQuantity := o.quantity, fee := fee);
            Resolve(Append(x, id), id) == Enter(d, p)
  {
    hide Join, Resolve, Shelve, Count;
    var id := d.next;
    var p := o.(status := Filled, filledPrice := price, filledQuantity := o.quantity, fee := fee);
    var e := SetStatus(StoredDesk(d, o), id, Filled);
    var x := e.(orders := e.orders[id := e.orders[id].(filledPrice := price, filledQuantity := o.quantity,
                                                       fee := fee)]);
    assert Append(x, id).orders == d.orders[id := p.(watched := true)];
  }

  lemma SubmitGood(cfg: Config, initial: real, st: State, req: Request, mid: real, depthCovers: bool)
    requires Good(initial, st)
    ensures Good(initial, Submit(cfg, st, req, mid, depthCovers))
  {
    hide Good, Keeps, Submit;
    SubmitKeeps(cfg, initial, st, req, mid, depthCovers);
    KeepsGood(initial, st, Submit(cfg, st, req, mid, depthCovers));
  }

  /** When a submission is an attempt to fill at once, and at what price. */
  lemma SubmitFills(cfg: Config, st: State, req: Request, o: Order, mid: real, depthCovers: bool)
    requires Refuses(req).None? && o == NewOrder(req) && Unresolved(st.desk, o.group) && mid != 0.0
    ensures o.terms.Immediate? ==>
              Submit(cfg, st, req, mid, depthCovers)
              == FillNow(cfg, st, req, o, MarketPrice(cfg, mid, o.side, o.quantity), mid)
  {
  }

  lemma NewOrderPlain(req: Request)
    requires Refuses(req).None?
    ensures NewOrder(req).status == Pending && !NewOrder(req).watched
  {
  }

  // ---------------------------------------------------------------- lemmas on cancels

  /** The books tell exactly which orders are pending, and no two books share one. */
  lemma BooksTell(initial: real, st: State, id: nat)
    requires Good(initial, st)
    ensures IsPending(st.desk, id) <==> exists b :: id in EntriesOf(st.desk.books, b)
    ensures forall b, c :: id in EntriesOf(st.desk.books, b) && id in EntriesOf(st.desk.books, c) ==> b == c
  {
    hide Reconciled, Matched, Stored, Exclusive;
    var b := st.desk.books;
    assert id in Resting(b) <==> id in b.limits || id in b.stops || id in b.trails || id in b.icebergs;
    assert id in Resting(b) <==> IsPending(st.desk, id);
    assert b.limits == EntriesOf(b, LimitBook) && b.stops == EntriesOf(b, StopBook)
        && b.trails == EntriesOf(b, TrailBook) && b.icebergs == EntriesOf(b, IcebergBook);
    forall x, y | id in EntriesOf(b, x) && id in EntriesOf(b, y) ensures x == y {
      assert KindOf(st.desk.orders[id].terms, x) && KindOf(st.desk.orders[id].terms, y);
    }
  }

  lemma CancelIsPop(d: Desk, id: nat)
    requires id in d.orders
    ensures SetStatus(d.(books := Drop(d.books, id)), id, Cancelled) == CancelResting(d, id)
  {
  }

  lemma SnapshotPending(initial: real, st: State, book: BookName)
    requires Good(initial, st)
    ensures var ids := EntriesOf(st.desk.books, book);
            Distinct(ids) && forall j :: 0 <= j < |ids| ==> IsPending(st.desk, ids[j])
  {
    hide Reconciled, Matched, Stored, Exclusive;
    BooksDistinct(initial, st);
    var ids := EntriesOf(st.desk.books, book);
    forall j | 0 <= j < |ids| ensures IsPending(st.desk, ids[j]) {
      assert ids[j] in ids;
      BooksTell(initial, st, ids[j]);
    }
  }

  lemma CancelSpares(d: Desk, id: nat, book: BookName)
    requires id in d.orders
    ensures forall x :: x in EntriesOf(d.books, book) && x != id ==> x in EntriesOf(CancelResting(d, id).books, book)
    ensures forall x :: x != id && IsPending(d, x) ==> IsPending(CancelResting(d, id), x)
  {
    RemoveFacts(EntriesOf(d.books, book), id);
  }

  lemma CancelAllStep(d: Desk, ids: seq<nat>, symbol: Option<Symbol>)
    requires ids != [] && IsPending(d, ids[0])
    ensures CancelAll(d, ids, symbol)
         == CancelAll(if symbol.None? || d.orders[ids[0]].symbol == symbol.value then CancelResting(d, ids[0]) else d,
                      ids[1..], symbol)
  {
  }

  lemma CancelNothing(d: Desk, symbol: Option<Symbol>)
    ensures CancelAll(d, [], symbol) == d
  {
  }

  lemma {:induction false} CancelAllConcat(d: Desk, xs: seq<nat>, ys: seq<nat>, symbol: Option<Symbol>)
    ensures CancelAll(d, xs + ys, symbol) == CancelAll(CancelAll(d, xs, symbol), ys, symbol)
    decreases |xs|
  {
    hide Engine.Cancel;
    if xs == [] {
      assert xs + ys == ys;
    } else {
      assert (xs + ys)[0] == xs[0] && (xs + ys)[1..] == xs[1..] + ys;
      var chosen := xs[0] in d.orders && (symbol.None? || d.orders[xs[0]].symbol == symbol.value);
      CancelAllConcat(if chosen then Engine.Cancel(d, xs[0]) else d, xs[1..], ys, symbol);
    }
  }

  /** Cancelling entries of other books leaves a book alone. */
  lemma {:induction false} CancelAllSpares(d: Desk, ids: seq<nat>, symbol: Option<Symbol>, book: BookName)
    requires forall x :: x in ids ==> x !in EntriesOf(d.books, book)
    ensures EntriesOf(CancelAll(d, ids, symbol).books, book) == EntriesOf(d.books, book)
    decreases |ids|
  {
    if ids != [] {
      var id := ids[0];
      var chosen := id in d.orders && (symbol.None? || d.orders[id].symbol == symbol.value);
      RemoveAbsent(EntriesOf(d.books, book), id);
      assert forall x :: x in ids[1..] ==> x in ids;
      CancelAllSpares(if chosen then Engine.Cancel(d, id) else d, ids[1..], symbol, book);
    }
  }

  /** Cancelling book by book, each as it is by then, is cancelling everything that rests. */
  lemma CancelByBooks(initial: real, st: State, symbol: Option<Symbol>)
    requires Good(initial, st)
    ensures var d := st.desk;
            var d1 := CancelAll(d, d.books.limits, symbol);
            var d2 := CancelAll(d1, d1.books.stops, symbol);
            var d3 := CancelAll(d2, d2.books.trails, symbol);
            CancelAll(d3, d3.books.icebergs, symbol) == CancelAll(d, Resting(d.books), symbol)
  {
    hide Good, CancelAll;
    var d, b := st.desk, st.desk.books;
    var d1 := CancelAll(d, b.limits, symbol);
    var d2 := CancelAll(d1, b.stops, symbol);
    var d3 := CancelAll(d2, b.trails, symbol);
    BooksApart(initial, st);
    CancelAllSpares(d, b.limits, symbol, StopBook);
    CancelAllSpares(d, b.limits, symbol, TrailBook);
    CancelAllSpares(d, b.limits, symbol, IcebergBook);
    CancelAllSpares(d1, b.stops, symbol, TrailBook);
    CancelAllSpares(d1, b.stops, symbol, IcebergBook);
    CancelAllSpares(d2, b.trails, symbol, IcebergBook);
    CancelAllConcat(d, b.limits, b.stops, symbol);
    CancelAllConcat(d, b.limits + b.stops, b.trails, symbol);
    CancelAllConcat(d, b.limits + b.stops + b.trails, b.icebergs, symbol);
  }

  lemma BooksApart(initial: real, st: State)
    requires Good(initial, st)
    ensures var b := st.desk.books;
            && (forall x :: x in b.limits ==> x !in b.stops && x !in b.trails && x !in b.icebergs)
            && (forall x :: x in b.stops ==> x !in b.trails && x !in b.icebergs)
            && (forall x :: x in b.trails ==> x !in b.icebergs)
  {
  }

  // ---------------------------------------------------------------- lemmas on the checking loops

  /** Every book of `c` holds only entries that the same book of `b` holds. */
  ghost predicate Shrunk(b: Books, c: Books)
  {
    && (forall x :: x in c.limits ==> x in b.limits) && (forall x :: x in c.stops ==> x in b.stops)
    && (forall x :: x in c.trails ==> x in b.trails) && (forall x :: x in c.icebergs ==> x in b.icebergs)
  }

  lemma {:induction false} CancelSiblingsShrinks(d: Desk, members: seq<nat>, winner: nat)
    ensures Shrunk(d.books, CancelSiblings(d, members, winner).books)
    decreases |members|
  {
    hide Drop;
    if members != [] {
      var m := members[0];
      var e := if m != winner && m in d.orders && d.orders[m].status == Pending then CancelResting(d, m) else d;
      DropFacts(d.books, m);
      CancelSiblingsShrinks(e, members[1..], winner);
    }
  }

  lemma ResolveShrinks(d: Desk, id: nat)
    requires id in d.orders
    ensures Shrunk(d.books, Resolve(d, id).books)
  {
    hide CancelSiblings;
    var g := d.orders[id].group;
    if g.Some? && g.value in d.groups && d.groups[g.value].winner.None? {
      var group := d.groups[g.value];
      CancelSiblingsShrinks(d.(groups := d.groups[g.value := group.(winner := Some(id))]), group.members, id);
    }
  }

  lemma CancelsLater(d: Desk, id: nat)
    requires id in d.orders
    ensures PurgeDesk(SetStatus(d, id, Cancelled), [id]) == CancelResting(d, id)
  {
    hide Drop, Count;
    PurgeOne(SetStatus(d, id, Cancelled), id);
  }

  lemma AdvanceTrails(t: Terms, side: Side, price: real)
    requires t.Trailing? && price != 0.0
    ensures Advance(t, side, price).Trailing?
  {
  }

  lemma ShrunkRefl(b: Books)
    ensures Shrunk(b, b)
  {
  }

  lemma ShrunkTrans(a: Books, b: Books, c: Books)
    requires Shrunk(a, b) && Shrunk(b, c)
    ensures Shrunk(a, c)
  {
  }

  lemma SweepNothing(cfg: Config, st: State, prices: Symbol -> real, now: real)
    ensures Sweep(cfg, st, [], prices, now) == st
  {
  }

  function EntriesOf(b: Books, book: BookName): seq<nat>
  {
    match book
    case LimitBook => b.limits
    case StopBook => b.stops
    case TrailBook => b.trails
    case IcebergBook => b.icebergs
  }

  predicate KindOf(t: Terms, book: BookName)
  {
    match book
    case LimitBook => t.AtLimit?
    case StopBook => t.StopLimit?
    case TrailBook => t.Trailing?
    case IcebergBook => t.Iceberg?
  }

  /** An entry of a snapshot keeps its kind while the loop runs. */
  lemma SnapshotEntry(initial: real, start: State, now: State, done: seq<nat>, book: BookName, id: nat)
    requires Good(initial, start) && Keeps(initial, start, Purged(now, done))
    requires id in EntriesOf(start.desk.books, book)
    ensures id in now.desk.orders && KindOf(now.desk.orders[id].terms, book)
  {
  }

  /** What is in one book at the start is in no other, and books only shrink. */
  lemma OnlyInOwnBook(initial: real, start: State, now: Books, book: BookName, ids: seq<nat>)
    requires Good(initial, start) && Shrunk(start.desk.books, now)
    requires forall x :: x in ids ==> x in EntriesOf(start.desk.books, book)
    ensures forall b, x :: b != book && x in ids ==> x !in EntriesOf(now, b)
  {
  }

  /** One round of a checking loop: with removals deferred, the remaining work still leads
      where removing at once would. */
  lemma Continues(cfg: Config, initial: real, before: State, after: State, done: seq<nat>, ids: seq<nat>,
                  prices: Symbol -> real, now: real, removed: bool)
    requires ids != [] && Good(initial, Purged(before, done))
    requires if IsPending(before.desk, ids[0])
             then (if removed then Purged(after, [ids[0]]) else after) == Tick(cfg, before, ids[0], prices, now)
             else after == before && removed
    ensures var next := Purged(after, if removed then done + [ids[0]] else done);
            && Keeps(initial, Purged(before, done), next)
            && Sweep(cfg, next, ids[1..], prices, now) == Sweep(cfg, Purged(before, done), ids, prices, now)
  {
    hide Good, Keeps, Tick, PurgeAll;
    var id := ids[0];
    TickPurged(cfg, before, id, prices, now, done);
    TickKeeps(cfg, initial, Purged(before, done), id, prices, now);
    if removed {
      PurgeOneMore(after.desk.books, done, id);
      PurgeOne(after.desk, id);
    }
    if !IsPending(before.desk, id) {
      NotPendingTick(cfg, initial, before, done, id, prices, now);
    }
  }

  lemma NotPendingTick(cfg: Config, initial: real, st: State, done: seq<nat>, id: nat, prices: Symbol -> real,
                       now: real)
    requires Good(initial, Purged(st, done)) && !IsPending(st.desk, id)
    ensures Tick(cfg, st, id, prices, now) == st && Purged(st, done + [id]) == Purged(st, done)
  {
    hide Reconciled, Matched, Stored, Exclusive, PurgeAll, Drop;
    assert id !in Resting(PurgeAll(st.desk.books, done)) by {
      assert !IsPending(PurgeDesk(st.desk, done), id);
    }
    DropAbsent(PurgeAll(st.desk.books, done), id);
    PurgeOneMore(st.desk.books, done, id);
  }

  lemma PurgeOne(d: Desk, id: nat)
    ensures PurgeDesk(d, [id]) == d.(books := Drop(d.books, id))
  {
    assert PurgeAll(d.books, [id][..0]) == d.books;
  }

  /** Rejecting a resting order and popping it later. */
  lemma RejectsLater(d: Desk, id: nat)
    requires id in d.orders
    ensures PurgeDesk(Append(SetStatus(d, id, Rejected), id), [id])
         == RejectResting(Retune(d, id, d.orders[id].terms), id)
  {
    hide Drop, Count;
    PurgeOne(Append(SetStatus(d, id, Rejected), id), id);
    assert d.orders[id := d.orders[id]] == d.orders;
  }

  /** Filling a resting order, resolving its group, and popping it later. */
  lemma FillsLater(d: Desk, id: nat, price: real, fee: real)
    requires id in d.orders
    ensures var q := d.orders[id].quantity;
            var e := SetStatus(d, id, Filled);
            var x := e.(orders := e.orders[id := e.orders[id].(filledPrice := price, filledQuantity := q, fee := fee)]);
            PurgeDesk(Resolve(x, id), [id]) == FillResting(d, id, d.orders[id].terms, price, q, fee)
  {
    hide Drop, Count, Resolve, PurgeAll;
    var q := d.orders[id].quantity;
    var e := SetStatus(d, id, Filled);
    var x := e.(orders := e.orders[id := e.orders[id].(filledPrice := price, filledQuantity := q, fee := fee)]);
    PurgeOne(x, id);
    ResolvePurged(x, id, [id]);
  }

  lemma NothingPurged(d: Desk)
    ensures PurgeDesk(d, []) == d
  {
  }

  /** One member of the group: cancelling its status now and popping it later is cancelling
      it at once. */
  lemma SiblingStep(d: Desk, members: seq<nat>, winner: nat, done: seq<nat>)
    requires members != []
    ensures var m := members[0];
            var now := if m != winner && m in d.orders && d.orders[m].status == Pending
                       then PurgeDesk(SetStatus(d, m, Cancelled), done + [m]) else PurgeDesk(d, done);
            CancelSiblings(PurgeDesk(d, done), members, winner) == CancelSiblings(now, members[1..], winner)
  {
  }

  lemma SiblingEnd(d: Desk, winner: nat)
    ensures CancelSiblings(d, [], winner) == d
  {
  }
}
