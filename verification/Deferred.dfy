/** The checking loops pop the orders they are done with only after the loop.  Removing
    entries from the books commutes with everything the loop body does, so the outcome is
    that of removing each entry at once. */
module DeferredRemoval {
  import opened Basics
  import opened Rounding
  import opened Accounts
  import opened Desk
  import opened Engine

  function PurgeAll(b: Books, ids: seq<nat>): Books
    decreases |ids|
  {
    if ids == [] then b else Drop(PurgeAll(b, ids[..|ids| - 1]), ids[|ids| - 1])
  }

  function PurgeDesk(d: Desk, ids: seq<nat>): Desk { d.(books := PurgeAll(d.books, ids)) }

  function Purged(st: State, ids: seq<nat>): State { st.(desk := PurgeDesk(st.desk, ids)) }

  lemma {:induction false} RemoveCommutes(s: seq<nat>, x: nat, y: nat)
    ensures Remove(Remove(s, x), y) == Remove(Remove(s, y), x)
  {
    if s != [] {
      RemoveCommutes(s[1..], x, y);
      var a, b := Remove(s[1..], x), Remove(s[1..], y);
      assert ([s[0]] + a)[1..] == a && ([s[0]] + b)[1..] == b;
    }
  }

  lemma DropCommutes(b: Books, x: nat, y: nat)
    ensures Drop(Drop(b, x), y) == Drop(Drop(b, y), x)
  {
    RemoveCommutes(b.limits, x, y);
    RemoveCommutes(b.stops, x, y);
    RemoveCommutes(b.trails, x, y);
    RemoveCommutes(b.icebergs, x, y);
  }

  lemma {:induction false} PurgeDrops(b: Books, ids: seq<nat>, x: nat)
    ensures PurgeAll(Drop(b, x), ids) == Drop(PurgeAll(b, ids), x)
    decreases |ids|
  {
    hide Drop;
    if ids != [] {
      var rest, y := ids[..|ids| - 1], ids[|ids| - 1];
      PurgeDrops(b, rest, x);
      DropCommutes(PurgeAll(b, rest), x, y);
    }
  }

  lemma PurgeOneMore(b: Books, ids: seq<nat>, x: nat)
    ensures PurgeAll(b, ids + [x]) == Drop(PurgeAll(b, ids), x) == PurgeAll(Drop(b, x), ids)
  {
    assert (ids + [x])[..|ids|] == ids;
    PurgeDrops(b, ids, x);
  }

  /** Dropping an order that no book holds changes nothing. */
  lemma {:induction false} RemoveAbsent(s: seq<nat>, x: nat)
    requires x !in s
    ensures Remove(s, x) == s
  {
    if s != [] {
      assert s == [s[0]] + s[1..];
      RemoveAbsent(s[1..], x);
    }
  }

  lemma DropAbsent(b: Books, x: nat)
    requires x !in Resting(b)
    ensures Drop(b, x) == b
  {
    RemoveAbsent(b.limits, x);
    RemoveAbsent(b.stops, x);
    RemoveAbsent(b.trails, x);
    RemoveAbsent(b.icebergs, x);
  }

  // ---------------------------------------------------------------- transitions

  lemma CancelPurged(d: Desk, id: nat, ids: seq<nat>)
    requires id in d.orders
    ensures CancelResting(PurgeDesk(d, ids), id) == PurgeDesk(CancelResting(d, id), ids)
    ensures RejectResting(PurgeDesk(d, ids), id) == PurgeDesk(RejectResting(d, id), ids)
  {
    PurgeDrops(d.books, ids, id);
  }

  lemma {:induction false} CancelSiblingsPurged(d: Desk, members: seq<nat>, winner: nat, ids: seq<nat>)
    ensures CancelSiblings(PurgeDesk(d, ids), members, winner) == PurgeDesk(CancelSiblings(d, members, winner), ids)
    decreases |members|
  {
    hide PurgeAll, CancelResting;
    if members != [] {
      var m := members[0];
      if m != winner && m in d.orders && d.orders[m].status == Pending {
        CancelPurged(d, m, ids);
        CancelSiblingsPurged(CancelResting(d, m), members[1..], winner, ids);
      } else {
        CancelSiblingsPurged(d, members[1..], winner, ids);
      }
    }
  }

  lemma ResolvePurged(d: Desk, id: nat, ids: seq<nat>)
    requires id in d.orders
    ensures Resolve(PurgeDesk(d, ids), id) == PurgeDesk(Resolve(d, id), ids)
  {
    hide PurgeAll, CancelSiblings;
    var g := d.orders[id].group;
    if g.Some? && g.value in d.groups && d.groups[g.value].winner.None? {
      var group := d.groups[g.value];
      var m := d.(groups := d.groups[g.value := group.(winner := Some(id))]);
      assert PurgeDesk(m, ids) == PurgeDesk(d, ids).(groups := m.groups);
      CancelSiblingsPurged(m, group.members, id, ids);
    }
  }

  lemma FillPurged(d: Desk, id: nat, t: Terms, price: real, quantity: real, fee: real, ids: seq<nat>)
    requires id in d.orders
    ensures FillResting(PurgeDesk(d, ids), id, t, price, quantity, fee)
         == PurgeDesk(FillResting(d, id, t, price, quantity, fee), ids)
  {
    hide PurgeAll, Resolve, Drop, Count;
    PurgeDrops(d.books, ids, id);
    var e := SetStatus(d, id, Filled);
    var o := e.orders[id].(terms := t, filledPrice := price, filledQuantity := quantity, fee := fee);
    var m := e.(orders := e.orders[id := o], books := Drop(d.books, id));
    ResolvePurged(m, id, ids);
  }

  lemma ExecutePurged(cfg: Config, st: State, id: nat, t: Terms, price: real, ids: seq<nat>)
    requires id in st.desk.orders
    ensures Execute(cfg, Purged(st, ids), id, t, price) == Purged(Execute(cfg, st, id, t, price), ids)
  {
    hide PurgeAll, FillResting, RejectResting, Post;
    var o := st.desk.orders[id];
    var f := RestingFill(cfg, id, o, o.quantity, price);
    assert Retune(PurgeDesk(st.desk, ids), id, t) == PurgeDesk(Retune(st.desk, id, t), ids);
    CancelPurged(Retune(st.desk, id, t), id, ids);
    FillPurged(st.desk, id, t, f.price, o.quantity, f.fee, ids);
  }

  lemma SlicePurged(cfg: Config, st: State, id: nat, price: real, ids: seq<nat>)
    requires id in st.desk.orders && st.desk.orders[id].terms.Iceberg? && st.desk.orders[id].terms.hidden > 0.0
    ensures Slice(cfg, Purged(st, ids), id, price) == Purged(Slice(cfg, st, id, price), ids)
  {
    hide PurgeAll, FillResting, Post, RoundPrice, Round4, FeeOf, Lever;
    var o := st.desk.orders[id];
    var quantity: Qty := Min(o.terms.visible, o.terms.hidden);
    var t := o.terms.(hidden := o.terms.hidden - quantity, slices := o.terms.slices + 1);
    FillPurged(st.desk, id, t, o.filledPrice, o.quantity, o.fee, ids);
  }

  /** One tick does not care which other entries have been removed already. */
  lemma TickPurged(cfg: Config, st: State, id: nat, prices: Symbol -> real, now: real, ids: seq<nat>)
    ensures Tick(cfg, Purged(st, ids), id, prices, now) == Purged(Tick(cfg, st, id, prices, now), ids)
  {
    hide PurgeAll, Execute, Slice, Advance, Slipped, CancelResting;
    if IsPending(st.desk, id) {
      var o := st.desk.orders[id];
      var price := prices(o.symbol);
      CancelPurged(st.desk, id, ids);
      match o.terms
      case Immediate =>
      case AtLimit(limit, _) =>
        ExecutePurged(cfg, st, id, o.terms, limit, ids);
      case StopLimit(stop, limit, triggered) =>
        ExecutePurged(cfg, st, id, o.terms.(triggered := triggered || StopReached(o.side, price, stop)), limit, ids);
      case Trailing(_, _, _, _, _, _) =>
        if price != 0.0 {
          ExecutePurged(cfg, st, id, Advance(o.terms, o.side, price), Slipped(cfg, o.side, price), ids);
        }
      case Iceberg(floor, _, hidden, _) =>
        if hidden > 0.0 {
          SlicePurged(cfg, st, id, price, ids);
          if floor.Some? { SlicePurged(cfg, st, id, floor.value, ids); }
        }
    }
  }

  /** Terms that were already written to the order before it executes. */
  lemma ExecuteRetuned(cfg: Config, st: State, id: nat, t: Terms, price: real)
    requires id in st.desk.orders
    ensures Execute(cfg, st.(desk := Retune(st.desk, id, t)), id, t, price) == Execute(cfg, st, id, t, price)
  {
    hide Resolve, Drop, Count, Post, RoundPrice, Round4, FillResting, RejectResting;
    var d, o := st.desk, st.desk.orders[id];
    var m := Retune(d, id, t);
    assert Retune(m, id, t) == m by { assert m.orders[id := o.(terms := t)] == m.orders; }
    var f := RestingFill(cfg, id, o, o.quantity, price);
    assert FillResting(m, id, t, f.price, o.quantity, f.fee) == FillResting(d, id, t, f.price, o.quantity, f.fee) by {
      FillRetuned(d, id, t, f.price, o.quantity, f.fee);
    }
  }

  lemma FillRetuned(d: Desk, id: nat, t: Terms, price: real, quantity: real, fee: real)
    requires id in d.orders
    ensures FillResting(Retune(d, id, t), id, t, price, quantity, fee) == FillResting(d, id, t, price, quantity, fee)
  {
    hide Resolve, Drop, Count;
    var tuned := d.orders[id].(terms := t);
    var o := d.orders[id].(status := Filled, terms := t, filledPrice := price, filledQuantity := quantity, fee := fee);
    assert d.orders[id := tuned][id := tuned.(status := Filled)][id := o]
        == d.orders[id := d.orders[id].(status := Filled)][id := o];
  }
}
