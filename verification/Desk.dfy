/** The order desk of the exchange: stored orders, the four books of resting orders, the
    OCO groups and the cumulative order counters fed by the status listener. */
module Desk {
  import opened Basics
  import opened Accounts

  type GroupId = nat

  datatype Status = Pending | Filled | Rejected | Cancelled

  /** What an order waits for.  `Immediate` never rests. */
  datatype Terms =
    | Immediate
    | AtLimit(price: real, expireTs: Option<real>)
    | StopLimit(stop: real, limit: real, triggered: bool)
    | Trailing(amount: real, percentage: bool, level: real, highest: real, lowest: real, activated: bool)
    | Iceberg(floor: Option<real>, visible: Qty, hidden: real, slices: nat)

  /** `watched` tells whether the history has registered its status listener. */
  datatype Order = Order(
    symbol: Symbol, side: Side, quantity: Qty, terms: Terms, status: Status,
    filledPrice: real, filledQuantity: real, fee: real,
    group: Option<GroupId>, watched: bool)

  /** Books are insertion-ordered dictionaries; only their keys matter here, the values
      being the stored orders. */
  datatype Books = Books(limits: seq<nat>, stops: seq<nat>, trails: seq<nat>, icebergs: seq<nat>)

  datatype Group = Group(members: seq<nat>, winner: Option<nat>)

  datatype Counts = Counts(submitted: nat, filled: nat, rejected: nat, cancelled: nat)

  datatype Desk = Desk(
    next: nat, orders: map<nat, Order>, books: Books,
    groups: map<GroupId, Group>, counts: Counts)

  const EMPTY := Desk(0, map[], Books([], [], [], []), map[], Counts(0, 0, 0, 0))

  // ---------------------------------------------------------------- primitives

  function Remove(s: seq<nat>, x: nat): seq<nat>
  {
    if s == [] then []
    else if s[0] == x then Remove(s[1..], x)
    else [s[0]] + Remove(s[1..], x)
  }

  function Resting(b: Books): seq<nat> { b.limits + b.stops + b.trails + b.icebergs }

  function Drop(b: Books, id: nat): Books
  {
    Books(Remove(b.limits, id), Remove(b.stops, id), Remove(b.trails, id), Remove(b.icebergs, id))
  }

  function Shelve(b: Books, id: nat, t: Terms): Books
  {
    match t
    case Immediate => b
    case AtLimit(_, _) => b.(limits := b.limits + [id])
    case StopLimit(_, _, _) => b.(stops := b.stops + [id])
    case Trailing(_, _, _, _, _, _) => b.(trails := b.trails + [id])
    case Iceberg(_, _, _, _) => b.(icebergs := b.icebergs + [id])
  }

  function Count(c: Counts, s: Status): Counts
  {
    match s
    case Pending => c
    case Filled => c.(filled := c.filled + 1)
    case Rejected => c.(rejected := c.rejected + 1)
    case Cancelled => c.(cancelled := c.cancelled + 1)
  }

  /** Assigning `status`: the listener hears of a change once it is registered. */
  function SetStatus(d: Desk, id: nat, s: Status): Desk
    requires id in d.orders
  {
    var o := d.orders[id];
    d.(orders := d.orders[id := o.(status := s)],
       counts := if o.watched && o.status != s then Count(d.counts, s) else d.counts)
  }

  /** Appending to the order history registers the listener and counts the order. */
  function Append(d: Desk, id: nat): Desk
    requires id in d.orders
  {
    d.(orders := d.orders[id := d.orders[id].(watched := true)],
       counts := CountSubmitted(d.counts, d.orders[id].status))
  }

  function CountSubmitted(c: Counts, s: Status): Counts
  {
    Count(c.(submitted := c.submitted + 1), s)
  }

  // ---------------------------------------------------------------- transitions

  /** A request refused before it became a stored order. */
  function Bounce(d: Desk): Desk
  {
    d.(next := d.next + 1, counts := CountSubmitted(d.counts, Rejected))
  }

  function Join(groups: map<GroupId, Group>, g: Option<GroupId>, id: nat): map<GroupId, Group>
  {
    if g.None? then groups
    else if g.value in groups then
      groups[g.value := groups[g.value].(members := groups[g.value].members + [id])]
    else groups[g.value := Group([id], None)]
  }

  /** The desk right after a new order is stored, its group not yet resolved. */
  function Entered(d: Desk, o: Order): Desk
  {
    Desk(d.next + 1, d.orders[d.next := o.(watched := true)],
         if o.status == Pending then Shelve(d.books, d.next, o.terms) else d.books,
         Join(d.groups, o.group, d.next), CountSubmitted(d.counts, o.status))
  }

  /** A new order enters with the status the submission decided on. */
  function Enter(d: Desk, o: Order): Desk
  {
    var e := Entered(d, o);
    if o.status == Filled then Resolve(e, d.next) else e
  }

  function CancelResting(d: Desk, id: nat): Desk
    requires id in d.orders
  {
    SetStatus(d, id, Cancelled).(books := Drop(d.books, id))
  }

  /** A resting order that fails its margin check is rejected and appended a second time. */
  function RejectResting(d: Desk, id: nat): Desk
    requires id in d.orders
  {
    Append(SetStatus(d, id, Rejected), id).(books := Drop(d.books, id))
  }

  function FillResting(d: Desk, id: nat, t: Terms, price: real, quantity: real, fee: real): Desk
    requires id in d.orders
  {
    var e := SetStatus(d, id, Filled);
    var o := e.orders[id].(terms := t, filledPrice := price, filledQuantity := quantity, fee := fee);
    Resolve(e.(orders := e.orders[id := o], books := Drop(d.books, id)), id)
  }

  /** Changing the waiting terms of an order that stays where it is. */
  function Retune(d: Desk, id: nat, t: Terms): Desk
    requires id in d.orders
  {
    d.(orders := d.orders[id := d.orders[id].(terms := t)])
  }

  /** A refused iceberg slice is an order of its own in the history. */
  function RejectSlice(d: Desk): Desk
  {
    d.(counts := CountSubmitted(d.counts, Rejected))
  }

  function CancelSiblings(d: Desk, members: seq<nat>, winner: nat): (e: Desk)
    ensures e.orders.Keys == d.orders.Keys && e.next == d.next
    ensures forall id :: id in d.orders ==>
              || e.orders[id] == d.orders[id]
              || (d.orders[id].status == Pending && e.orders[id] == d.orders[id].(status := Cancelled))
    decreases |members|
  {
    if members == [] then d
    else
      var m := members[0];
      var e := if m != winner && m in d.orders && d.orders[m].status == Pending
               then CancelResting(d, m) else d;
      CancelSiblings(e, members[1..], winner)
  }

  /** The first fill of an unresolved group wins it and cancels the pending members. */
  function Resolve(d: Desk, id: nat): Desk
    requires id in d.orders
  {
    var g := d.orders[id].group;
    if g.None? || g.value !in d.groups || d.groups[g.value].winner.Some? then d
    else
      var group := d.groups[g.value];
      CancelSiblings(d.(groups := d.groups[g.value := group.(winner := Some(id))]), group.members, id)
  }

  // ---------------------------------------------------------------- invariants

  ghost predicate Distinct(s: seq<nat>)
  {
    forall i, j :: 0 <= i < j < |s| ==> s[i] != s[j]
  }

  predicate IsPending(d: Desk, id: nat) { id in d.orders && d.orders[id].status == Pending }

  /** Icebergs never trade their visible part: after `n` slices the hidden quantity is what
      `n` slices leave of it, and it is zero exactly after the last one. */
  ghost predicate SlicesOk(o: Order)
  {
    o.terms.Iceberg? ==>
      var t := o.terms;
      var toHide := o.quantity - t.visible;
      && toHide > 0.0 && t.hidden >= 0.0
      && (t.hidden > 0.0 ==> t.hidden == toHide - t.slices as real * t.visible && o.status != Filled)
      && (t.hidden == 0.0 ==> t.slices > 0
                              && (t.slices - 1) as real * t.visible < toHide <= t.slices as real * t.visible
                              && o.status == Filled)
  }

  /** A filled order of any kind reports its whole quantity as filled. */
  ghost predicate ReportsAll(o: Order) { o.filledQuantity == o.quantity }

  /** The books hold exactly the pending orders, each once and in the book of its kind. */
  ghost predicate BooksExact(d: Desk)
  {
    && Distinct(Resting(d.books))
    && (forall id :: id in Resting(d.books) <==> IsPending(d, id))
    && (forall id :: id in d.books.limits ==> id in d.orders && d.orders[id].terms.AtLimit?)
    && (forall id :: id in d.books.stops ==> id in d.orders && d.orders[id].terms.StopLimit?)
    && (forall id :: id in d.books.trails ==> id in d.orders && d.orders[id].terms.Trailing?)
    && (forall id :: id in d.books.icebergs ==> id in d.orders && d.orders[id].terms.Iceberg?)
  }

  /** Every order counted once, resting ones apart. */
  ghost predicate FlowConserved(d: Desk)
  {
    d.counts.submitted == d.counts.filled + d.counts.rejected + d.counts.cancelled + |Resting(d.books)|
  }

  ghost predicate Stored(d: Desk)
  {
    forall id :: id in d.orders ==>
      && id < d.next && d.orders[id].watched && SlicesOk(d.orders[id])
      && (d.orders[id].status == Filled ==> ReportsAll(d.orders[id]))
  }

  ghost predicate Core(d: Desk) { Stored(d) && BooksExact(d) && FlowConserved(d) }

  ghost predicate Membership(d: Desk)
  {
    && (forall g, i :: g in d.groups && 0 <= i < |d.groups[g].members| ==>
          d.groups[g].members[i] in d.orders && d.orders[d.groups[g].members[i]].group == Some(g))
    && (forall id :: id in d.orders && d.orders[id].group.Some? ==>
          d.orders[id].group.value in d.groups && id in d.groups[d.orders[id].group.value].members)
  }

  /** Nobody has filled in an unresolved group; in a resolved one the winner has, and no
      other member has or still can.  `but` exempts one order, for the moment between its
      fill and the resolution of its group. */
  ghost predicate ExclusiveBut(d: Desk, but: Option<nat>)
  {
    && Membership(d)
    && (forall id :: id in d.orders && d.orders[id].group.Some? && but != Some(id) ==>
          var winner := d.groups[d.orders[id].group.value].winner;
          && (d.orders[id].status == Filled ==> winner == Some(id))
          && (d.orders[id].status == Pending ==> winner == None))
    && (forall g :: g in d.groups && d.groups[g].winner.Some? ==>
          var w := d.groups[g].winner.value;
          w in d.groups[g].members && d.orders[w].status == Filled)
  }

  ghost predicate Exclusive(d: Desk) { ExclusiveBut(d, None) }

  ghost predicate Sound(d: Desk) { Core(d) && Exclusive(d) }

  function LimitOf(t: Terms): Option<real>
  {
    match t
    case AtLimit(p, _) => Some(p)
    case StopLimit(_, p, _) => Some(p)
    case Iceberg(p, _, _, _) => p
    case _ => None
  }

  predicate SameKind(t: Terms, u: Terms)
  {
    && (t.Immediate? <==> u.Immediate?) && (t.StopLimit? <==> u.StopLimit?) && (t.Trailing? <==> u.Trailing?)
    && (t.Iceberg? <==> u.Iceberg?) && (t.AtLimit? <==> u.AtLimit?)
    && LimitOf(t) == LimitOf(u) && (t.Iceberg? ==> t.visible == u.visible)
  }

  predicate SameOrder(o: Order, p: Order)
  {
    && o.symbol == p.symbol && o.side == p.side && o.quantity == p.quantity && o.group == p.group
    && SameKind(o.terms, p.terms)
  }

  /** Apart from order `id`, a transition only cancels pending orders. */
  ghost predicate OnlyCancels(d: Desk, e: Desk, id: nat)
  {
    && e.orders.Keys == d.orders.Keys + {id}
    && forall j :: j in d.orders && j != id ==>
         || e.orders[j] == d.orders[j]
         || (IsPending(d, j) && e.orders[j] == d.orders[j].(status := Cancelled))
  }

  /** Nothing about an order changes once its status is terminal, and what identifies it
      never changes. */
  ghost predicate Persists(d: Desk, e: Desk)
  {
    && d.next <= e.next
    && forall id :: id in d.orders ==>
         && id in e.orders
         && (d.orders[id].status != Pending ==> e.orders[id] == d.orders[id])
         && SameOrder(d.orders[id], e.orders[id])
  }

  // ---------------------------------------------------------------- lists of ids

  lemma {:induction false} RemoveFacts(s: seq<nat>, x: nat)
    ensures forall y :: y in Remove(s, x) <==> y in s && y != x
    ensures Distinct(s) ==> Distinct(Remove(s, x)) && |Remove(s, x)| == |s| - (if x in s then 1 else 0)
  {
    if s != [] {
      RemoveFacts(s[1..], x);
      assert s == [s[0]] + s[1..];
      if Distinct(s) {
        assert s[0] !in s[1..];
        assert Distinct(s[1..]) by {
          forall i, j | 0 <= i < j < |s[1..]| ensures s[1..][i] != s[1..][j] {
            assert s[i + 1] != s[j + 1];
          }
        }
      }
    }
  }

  lemma {:induction false} RemoveConcat(s: seq<nat>, t: seq<nat>, x: nat)
    ensures Remove(s + t, x) == Remove(s, x) + Remove(t, x)
  {
    if s == [] {
      assert s + t == t;
    } else {
      assert (s + t)[0] == s[0] && (s + t)[1..] == s[1..] + t;
      RemoveConcat(s[1..], t, x);
    }
  }

  lemma DropFacts(b: Books, id: nat)
    ensures Resting(Drop(b, id)) == Remove(Resting(b), id)
    ensures forall y :: y in Resting(Drop(b, id)) <==> y in Resting(b) && y != id
    ensures Distinct(Resting(b)) ==> (
              && Distinct(Resting(Drop(b, id)))
              && |Resting(Drop(b, id))| == |Resting(b)| - (if id in Resting(b) then 1 else 0))
    ensures forall y :: y in Drop(b, id).limits ==> y in b.limits
    ensures forall y :: y in Drop(b, id).stops ==> y in b.stops
    ensures forall y :: y in Drop(b, id).trails ==> y in b.trails
    ensures forall y :: y in Drop(b, id).icebergs ==> y in b.icebergs
  {
    RemoveConcat(b.limits, b.stops, id);
    RemoveConcat(b.limits + b.stops, b.trails, id);
    RemoveConcat(b.limits + b.stops + b.trails, b.icebergs, id);
    RemoveFacts(Resting(b), id);
    RemoveFacts(b.limits, id);
    RemoveFacts(b.stops, id);
    RemoveFacts(b.trails, id);
    RemoveFacts(b.icebergs, id);
  }

  lemma ShelveFacts(b: Books, id: nat, t: Terms)
    requires id !in Resting(b) && !t.Immediate?
    ensures forall y :: y in Resting(Shelve(b, id, t)) <==> y in Resting(b) || y == id
    ensures Distinct(Resting(b)) ==> Distinct(Resting(Shelve(b, id, t)))
    ensures |Resting(Shelve(b, id, t))| == |Resting(b)| + 1
  {
    var u, v := Resting(b), Resting(Shelve(b, id, t));
    var k := match t
      case AtLimit(_, _) => |b.limits|
      case StopLimit(_, _, _) => |b.limits + b.stops|
      case Trailing(_, _, _, _, _, _) => |b.limits + b.stops + b.trails|
      case _ => |u|;
    assert v == u[..k] + [id] + u[k..];
    InsertFacts(u, k, id);
  }

  lemma InsertFacts(u: seq<nat>, k: nat, id: nat)
    requires k <= |u| && id !in u
    ensures var v := u[..k] + [id] + u[k..];
            (forall y :: y in v <==> y in u || y == id) && (Distinct(u) ==> Distinct(v))
  {
  }

  // ---------------------------------------------------------------- the books stay exact

  /** A pending order that leaves its book with a terminal status, counted once. */
  lemma Leaves(d: Desk, e: Desk, id: nat)
    requires Core(d) && IsPending(d, id)
    requires e.next == d.next && e.books == Drop(d.books, id)
    requires id in e.orders && e.orders == d.orders[id := e.orders[id]]
    requires e.orders[id].status != Pending && e.orders[id].watched && SlicesOk(e.orders[id])
    requires e.orders[id].status == Filled ==> ReportsAll(e.orders[id])
    requires e.counts.submitted - e.counts.filled - e.counts.rejected - e.counts.cancelled
          == d.counts.submitted - d.counts.filled - d.counts.rejected - d.counts.cancelled - 1
    ensures Core(e)
  {
    DropFacts(d.books, id);
    assert id in Resting(d.books);
  }

  /** A pending order that stays, with other terms of the same kind. */
  lemma Stays(d: Desk, id: nat, t: Terms)
    requires Core(d) && IsPending(d, id)
    requires SlicesOk(d.orders[id].(terms := t))
    requires SameKind(t, d.orders[id].terms)
    ensures Core(Retune(d, id, t))
  {
  }

  /** A new order, before any group it might win is resolved. */
  lemma Enters(d: Desk, o: Order)
    requires Core(d) && SlicesOk(o) && (o.status == Pending ==> !o.terms.Immediate?)
    requires o.status == Filled ==> ReportsAll(o)
    ensures Core(Entered(d, o))
  {
    hide BooksExact, Shelve;
    NextIsNew(d);
    EntersBooks(d, o);
  }

  lemma EntersBooks(d: Desk, o: Order)
    requires BooksExact(d) && d.next !in d.orders && (o.status == Pending ==> !o.terms.Immediate?)
    ensures var e := Entered(d, o);
            BooksExact(e) && |Resting(e.books)| == |Resting(d.books)| + (if o.status == Pending then 1 else 0)
  {
    assert d.next !in Resting(d.books);
    if o.status == Pending {
      ShelveFacts(d.books, d.next, o.terms);
    }
  }

  // ---------------------------------------------------------------- resolving a group

  lemma CancelLeaves(d: Desk, id: nat)
    requires Core(d) && IsPending(d, id)
    ensures Core(CancelResting(d, id))
  {
    Leaves(d, CancelResting(d, id), id);
  }

  /** Cancelling the siblings: exactly the pending members become CANCELLED, every other
      order is untouched, and the books stay exact. */
  lemma {:induction false} CancelSiblingsFacts(d: Desk, members: seq<nat>, winner: nat)
    requires Core(d) && winner in d.orders && d.orders[winner].status == Filled
    ensures var e := CancelSiblings(d, members, winner);
            && Core(e) && e.groups == d.groups && e.next == d.next && e.orders.Keys == d.orders.Keys
            && (forall id :: id in d.orders ==>
                  e.orders[id] == if id in members && d.orders[id].status == Pending
                                  then d.orders[id].(status := Cancelled) else d.orders[id])
    decreases |members|
  {
    hide Core, Drop, Count;
    if members != [] {
      var m := members[0];
      var e := d;
      if m != winner && m in d.orders && d.orders[m].status == Pending {
        e := CancelResting(d, m);
        CancelLeaves(d, m);
      }
      assert members == [m] + members[1..];
      CancelSiblingsFacts(e, members[1..], winner);
    }
  }

  predicate Unresolved(d: Desk, g: Option<GroupId>)
  {
    g.Some? && g.value in d.groups ==> d.groups[g.value].winner.None?
  }

  lemma ResolveSound(d: Desk, id: nat)
    requires Core(d) && id in d.orders && d.orders[id].status == Filled
    requires ExclusiveBut(d, Some(id)) && Unresolved(d, d.orders[id].group)
    ensures Sound(Resolve(d, id)) && Persists(d, Resolve(d, id))
    ensures OnlyCancels(d, Resolve(d, id), id) && Resolve(d, id).orders[id] == d.orders[id]
  {
    hide Core, CancelSiblings, Exclusive, ExclusiveBut, Persists, OnlyCancels;
    var g := d.orders[id].group;
    if g.None? {
      NoGroupExclusive(d, id);
    } else {
      GroupExists(d, id);
      var group := d.groups[g.value];
      var m := d.(groups := d.groups[g.value := group.(winner := Some(id))]);
      CoreIgnoresGroups(d, m);
      CancelSiblingsFacts(m, group.members, id);
      ResolvedExclusive(d, id, CancelSiblings(m, group.members, id));
    }
  }

  lemma GroupExists(d: Desk, id: nat)
    requires ExclusiveBut(d, Some(id)) && id in d.orders && d.orders[id].group.Some?
    ensures d.orders[id].group.value in d.groups
  {
  }

  lemma NoGroupExclusive(d: Desk, id: nat)
    requires ExclusiveBut(d, Some(id)) && id in d.orders && d.orders[id].group.None?
    ensures Exclusive(d) && Persists(d, d) && OnlyCancels(d, d, id)
  {
  }

  lemma ResolvedExclusive(d: Desk, id: nat, e: Desk)
    requires ExclusiveBut(d, Some(id)) && id in d.orders && d.orders[id].status == Filled
    requires var g := d.orders[id].group;
             && g.Some? && g.value in d.groups && d.groups[g.value].winner.None?
             && e.groups == d.groups[g.value := d.groups[g.value].(winner := Some(id))]
             && e.next == d.next && e.orders.Keys == d.orders.Keys
             && (forall j :: j in d.orders ==>
                  e.orders[j] == if j in d.groups[g.value].members && d.orders[j].status == Pending
                                 then d.orders[j].(status := Cancelled) else d.orders[j])
    ensures Exclusive(e) && Persists(d, e) && OnlyCancels(d, e, id) && e.orders[id] == d.orders[id]
  {
    var g := d.orders[id].group.value;
    assert forall j :: j in d.orders && d.orders[j].group == Some(g) ==> j in d.groups[g].members;
  }

  lemma CoreIgnoresGroups(d: Desk, e: Desk)
    requires Core(d) && e == d.(groups := e.groups)
    ensures Core(e)
  {
  }

  // ---------------------------------------------------------------- every transition is sound

  lemma BounceSound(d: Desk)
    requires Sound(d)
    ensures Sound(Bounce(d)) && Persists(d, Bounce(d))
  {
  }

  lemma RejectSliceSound(d: Desk)
    requires Sound(d)
    ensures Sound(RejectSlice(d)) && Persists(d, RejectSlice(d))
  {
  }

  lemma CancelRestingSound(d: Desk, id: nat)
    requires Sound(d) && IsPending(d, id)
    ensures Sound(CancelResting(d, id)) && Persists(d, CancelResting(d, id))
  {
    Leaves(d, CancelResting(d, id), id);
    LeavesExclusive(d, CancelResting(d, id), id);
  }

  lemma RejectRestingSound(d: Desk, id: nat)
    requires Sound(d) && IsPending(d, id)
    ensures Sound(RejectResting(d, id)) && Persists(d, RejectResting(d, id))
  {
    Leaves(d, RejectResting(d, id), id);
    LeavesExclusive(d, RejectResting(d, id), id);
  }

  /** Taking a pending order out of its book with a terminal status; a fill leaves its
      group to be resolved. */
  lemma LeavesExclusive(d: Desk, e: Desk, id: nat)
    requires Exclusive(d) && IsPending(d, id)
    requires id in e.orders && e.orders == d.orders[id := e.orders[id]] && e.groups == d.groups && e.next == d.next
    requires SameKind(d.orders[id].terms, e.orders[id].terms)
    requires e.orders[id] == d.orders[id].(status := e.orders[id].status, terms := e.orders[id].terms,
                                           filledPrice := e.orders[id].filledPrice,
                                           filledQuantity := e.orders[id].filledQuantity, fee := e.orders[id].fee,
                                           watched := e.orders[id].watched)
    ensures ExclusiveBut(e, Some(id)) && Persists(d, e) && Unresolved(e, e.orders[id].group)
    ensures e.orders[id].status == Rejected || e.orders[id].status == Cancelled ==> Exclusive(e)
  {
  }

  lemma FillRestingSound(d: Desk, id: nat, t: Terms, price: real, quantity: real, fee: real)
    requires Sound(d) && IsPending(d, id)
    requires SameKind(d.orders[id].terms, t) && SlicesOk(d.orders[id].(status := Filled, terms := t))
    requires quantity == d.orders[id].quantity
    ensures var e := FillResting(d, id, t, price, quantity, fee);
            && Sound(e) && Persists(d, e) && OnlyCancels(d, e, id)
            && e.orders[id] == d.orders[id].(status := Filled, terms := t, filledPrice := price,
                                             filledQuantity := quantity, fee := fee)
  {
    var m := Vacated(d, id, t, price, quantity, fee);
    hide Core, Exclusive, ExclusiveBut, Resolve, Drop, FillResting, SlicesOk, SameKind, Persists, Unresolved,
         OnlyCancels;
    FillRestingResolves(d, id, t, price, quantity, fee);
    VacatedSound(d, id, t, price, quantity, fee);
    ResolveSound(m, id);
    PersistsTrans(d, m, Resolve(m, id));
    OnlyCancelsAfter(d, m, Resolve(m, id), id);
  }

  lemma OnlyCancelsAfter(d: Desk, m: Desk, e: Desk, id: nat)
    requires id in m.orders && m.orders == d.orders[id := m.orders[id]] && OnlyCancels(m, e, id)
    ensures OnlyCancels(d, e, id)
  {
  }

  lemma VacatedSound(d: Desk, id: nat, t: Terms, price: real, quantity: real, fee: real)
    requires Sound(d) && IsPending(d, id)
    requires SameKind(d.orders[id].terms, t) && SlicesOk(d.orders[id].(status := Filled, terms := t))
    requires quantity == d.orders[id].quantity
    ensures var m := Vacated(d, id, t, price, quantity, fee);
            Core(m) && ExclusiveBut(m, Some(id)) && Persists(d, m) && Unresolved(m, m.orders[id].group)
  {
    var m := Vacated(d, id, t, price, quantity, fee);
    hide Core, Drop, Exclusive, ExclusiveBut, SlicesOk, SameKind, Persists, Unresolved;
    VacatedCore(d, id, t, price, quantity, fee);
    LeavesExclusive(d, m, id);
  }

  lemma VacatedCore(d: Desk, id: nat, t: Terms, price: real, quantity: real, fee: real)
    requires Core(d) && IsPending(d, id) && SlicesOk(d.orders[id].(status := Filled, terms := t))
    requires quantity == d.orders[id].quantity
    ensures Core(Vacated(d, id, t, price, quantity, fee))
  {
    Leaves(d, Vacated(d, id, t, price, quantity, fee), id);
  }

  lemma PersistsTrans(d: Desk, e: Desk, f: Desk)
    requires Persists(d, e) && Persists(e, f)
    ensures Persists(d, f)
  {
  }

  /** The desk when a resting order has filled but its group is not yet resolved. */
  function Vacated(d: Desk, id: nat, t: Terms, price: real, quantity: real, fee: real): Desk
    requires id in d.orders
  {
    var o := d.orders[id].(status := Filled, terms := t, filledPrice := price, filledQuantity := quantity, fee := fee);
    d.(orders := d.orders[id := o], books := Drop(d.books, id), counts := Count(d.counts, Filled))
  }

  lemma PendingWatched(d: Desk, id: nat)
    requires Core(d) && IsPending(d, id)
    ensures d.orders[id].watched
  {
  }

  lemma FillRestingResolves(d: Desk, id: nat, t: Terms, price: real, quantity: real, fee: real)
    requires Core(d) && IsPending(d, id)
    ensures FillResting(d, id, t, price, quantity, fee) == Resolve(Vacated(d, id, t, price, quantity, fee), id)
  {
    var o := Vacated(d, id, t, price, quantity, fee).orders[id];
    hide Core, Resolve, Drop, Count;
    PendingWatched(d, id);
    assert d.orders[id := o] == d.orders[id := d.orders[id].(status := Filled)][id := o];
  }

  lemma RetuneSound(d: Desk, id: nat, t: Terms)
    requires Sound(d) && IsPending(d, id)
    requires SlicesOk(d.orders[id].(terms := t))
    requires SameKind(t, d.orders[id].terms)
    ensures Sound(Retune(d, id, t)) && Persists(d, Retune(d, id, t))
  {
    hide Core;
    Stays(d, id, t);
  }

  lemma EnteredExclusive(d: Desk, o: Order)
    requires Exclusive(d) && d.next !in d.orders
    requires o.status == Pending || o.status == Filled ==> Unresolved(d, o.group)
    ensures var e := Entered(d, o);
            && ExclusiveBut(e, Some(d.next)) && Persists(d, e)
            && (o.status == Filled ==> Unresolved(e, o.group))
            && (o.status != Filled ==> Exclusive(e))
  {
    JoinMembership(d, Entered(d, o), d.next, o.group);
  }

  lemma NextIsNew(d: Desk)
    requires Core(d)
    ensures d.next !in d.orders
  {
  }

  lemma EnteredOnly(d: Desk, o: Order)
    ensures OnlyCancels(d, Entered(d, o), d.next)
  {
  }

  lemma EnterSound(d: Desk, o: Order)
    requires Sound(d) && SlicesOk(o) && (o.status == Pending ==> !o.terms.Immediate?)
    requires o.status == Filled ==> ReportsAll(o)
    requires o.status == Pending || o.status == Filled ==> Unresolved(d, o.group)
    ensures d.next !in d.orders
    ensures Sound(Enter(d, o)) && Persists(d, Enter(d, o)) && OnlyCancels(d, Enter(d, o), d.next)
    ensures Enter(d, o).orders[d.next] == o.(watched := true)
  {
    hide Core, Exclusive, ExclusiveBut, Resolve, Join, Shelve, Unresolved, SlicesOk, Persists, OnlyCancels;
    var e := Entered(d, o);
    NextIsNew(d);
    Enters(d, o);
    EnteredExclusive(d, o);
    EnteredOnly(d, o);
    if o.status == Filled {
      ResolveSound(e, d.next);
      PersistsTrans(d, e, Resolve(e, d.next));
      OnlyCancelsAfter(d, e, Resolve(e, d.next), d.next);
      assert Enter(d, o) == Resolve(e, d.next);
    } else {
      assert Enter(d, o) == e;
    }
  }

  lemma JoinMembership(d: Desk, e: Desk, id: nat, g: Option<GroupId>)
    requires Membership(d) && id !in d.orders && id in e.orders
    requires e.orders == d.orders[id := e.orders[id]] && e.orders[id].group == g
    requires e.groups == Join(d.groups, g, id)
    ensures Membership(e)
  {
  }
}
