/** Incremental order-book broadcast: the server remembers what it last sent of each book and
    sends the changed levels; the client applies them to the book it holds. */
module BookDeltas {
  import opened Basics
  import opened OrderBooks
  import Rounding

  /** One side as a dictionary from price to quantity. */
  type Side = map<real, real>

  datatype Sides = Sides(bids: Side, asks: Side)

  /** A changed level on the wire; quantity zero deletes. */
  datatype Change = Change(p: real, q: real)

  datatype Message =
    | Full(book: Book)
    | Changes(bids: seq<Change>, asks: seq<Change>)
    | Silence

  const TOLERANCE := 0.000000000001

  /** Later levels of a price replace earlier ones. */
  function SideOfLevels(levels: seq<Level>): Side
    decreases |levels|
  {
    if levels == [] then map[]
    else SideOfLevels(levels[..|levels| - 1])[levels[|levels| - 1].price := levels[|levels| - 1].quantity]
  }

  function SidesOf(b: Book): Sides { Sides(SideOfLevels(b.bids), SideOfLevels(b.asks)) }

  // ------------------------------------------------------------------ what changed

  /** The comparison of the encoder: new, gone, or different by more than the tolerance. */
  predicate Differs(last: Side, current: Side, p: real)
  {
    if p in current then p !in last || last[p] - current[p] > TOLERANCE || current[p] - last[p] > TOLERANCE
    else p in last
  }

  function NewQuantity(current: Side, p: real): real { if p in current then current[p] else 0.0 }

  predicate Unrepeated(cs: seq<Change>) { forall i, j :: 0 <= i < j < |cs| ==> cs[i].p != cs[j].p }

  predicate Lists(cs: seq<Change>, p: real) { exists i :: 0 <= i < |cs| && cs[i].p == p }

  /** Every change is of a price that differs, to its new quantity, and no price comes twice. */
  predicate Sound(cs: seq<Change>, last: Side, current: Side)
  {
    && Unrepeated(cs)
    && forall i :: 0 <= i < |cs| ==> Differs(last, current, cs[i].p) && cs[i].q == NewQuantity(current, cs[i].p)
  }

  /** ... and every price that differs is there. */
  ghost predicate Encodes(cs: seq<Change>, last: Side, current: Side)
  {
    Sound(cs, last, current) && forall p :: Differs(last, current, p) ==> Lists(cs, p)
  }

  lemma Extended(cs: seq<Change>, c: Change, last: Side, current: Side)
    requires Sound(cs, last, current) && !Lists(cs, c.p) && Differs(last, current, c.p)
    requires c.q == NewQuantity(current, c.p)
    ensures Sound(cs + [c], last, current) && forall p :: Lists(cs + [c], p) <==> Lists(cs, p) || p == c.p
  {
    hide Differs;
    var ds := cs + [c];
    assert ds[|cs|] == c && forall i :: 0 <= i < |cs| ==> ds[i] == cs[i];
  }

  /** Every quantity of a side is a non-negative multiple of a lot. */
  predicate OnLots(s: Side) { forall p :: p in s ==> s[p] >= 0.0 && OnLot(s[p]) }

  predicate OnLotsBoth(s: Sides) { OnLots(s.bids) && OnLots(s.asks) }

  lemma NoneListed(last: Side, current: Side)
    ensures Sound([], last, current) && forall p :: !Lists([], p)
  {
  }

  lemma SomePrice(prices: set<real>)
    requires prices != {}
    ensures exists p :: p in prices
  {
    assert (forall p :: p !in prices) ==> prices == {};
  }

  lemma LotGap(a: real, b: real)
    requires OnLot(a) && OnLot(b) && -TOLERANCE <= a - b <= TOLERANCE
    ensures a == b
  {
    var m, n := Rounding.RoundHalfEven(a * 10000.0), Rounding.RoundHalfEven(b * 10000.0);
    assert a * 10000.0 == m as real && b * 10000.0 == n as real;
    assert -1.0 < (m - n) as real < 1.0;
  }

  /** Quantities lie on lots, so the tolerance hides no change: a price differs for the encoder
      exactly when its quantity, or its presence, changed. */
  lemma DiffersIffChanged(last: Side, current: Side, p: real)
    requires OnLots(last) && OnLots(current)
    ensures Differs(last, current, p) <==> !((p in last <==> p in current) && (p in last ==> last[p] == current[p]))
  {
    if p in last && p in current && !Differs(last, current, p) { LotGap(last[p], current[p]); }
  }

  // ---------------------------------------------------------------------- the client

  /** A zero quantity deletes the price, any other sets it. */
  function Applied(s: Side, c: Change): Side { if c.q > 0.0 then s[c.p := c.q] else s - {c.p} }

  function AppliedAll(s: Side, cs: seq<Change>): Side
    decreases |cs|
  {
    if cs == [] then s else Applied(AppliedAll(s, cs[..|cs| - 1]), cs[|cs| - 1])
  }

  /** A side without its zero-quantity levels. */
  function Live(s: Side): Side { map p | p in s && s[p] != 0.0 :: s[p] }

  lemma {:induction false} AppliedAt(s: Side, cs: seq<Change>, p: real)
    requires Unrepeated(cs)
    ensures var e := AppliedAll(s, cs);
      (forall i :: 0 <= i < |cs| && cs[i].p == p ==> (p in e <==> cs[i].q > 0.0) && (p in e ==> e[p] == cs[i].q)) &&
      ((forall i :: 0 <= i < |cs| ==> cs[i].p != p) ==> (p in e <==> p in s) && (p in e ==> e[p] == s[p]))
    decreases |cs|
  {
    if cs != [] {
      var ds := cs[..|cs| - 1];
      assert forall i :: 0 <= i < |ds| ==> ds[i] == cs[i];
      AppliedAt(s, ds, p);
    }
  }

  /** Applying an encoding to the old side gives the new one, up to zero-quantity levels. */
  lemma DecodesEncoded(held: Side, cs: seq<Change>, last: Side, current: Side)
    requires Encodes(cs, last, current) && OnLots(last) && OnLots(current) && Live(held) == Live(last)
    ensures Live(AppliedAll(held, cs)) == Live(current)
  {
    var e := AppliedAll(held, cs);
    forall p ensures (p in Live(e) <==> p in Live(current)) && (p in Live(e) ==> e[p] == current[p]) {
      AppliedAt(held, cs, p);
      DiffersIffChanged(last, current, p);
      if Differs(last, current, p) {
        var i :| 0 <= i < |cs| && cs[i].p == p;
      } else {
        assert p in Live(held) <==> p in Live(last);
        if p in Live(held) { assert Live(held)[p] == Live(last)[p]; }
      }
    }
  }

  // -------------------------------------------------------------------- whole broadcasts

  /** What happens between server and client: a book is broadcast, or the server forgets what it
      sent and starts over with full books. */
  datatype Event = Tick(key: string, book: Book, message: Message) | Restart

  datatype Link = Link(sent: map<string, Sides>, held: map<string, Sides>)

  /** A message the encoder may send for a book, whatever order it visits the prices in. */
  ghost predicate Sendable(sent: map<string, Sides>, e: Event)
  {
    match e
    case Restart => true
    case Tick(key, book, message) =>
      if key !in sent then message == Full(book)
      else match message
        case Full(_) => false
        case Silence =>
          Encodes([], sent[key].bids, SideOfLevels(book.bids)) &&
          Encodes([], sent[key].asks, SideOfLevels(book.asks))
        case Changes(bids, asks) =>
          (bids != [] || asks != []) &&
          Encodes(bids, sent[key].bids, SideOfLevels(book.bids)) &&
          Encodes(asks, sent[key].asks, SideOfLevels(book.asks))
  }

  function Received(held: map<string, Sides>, key: string, m: Message): map<string, Sides>
  {
    match m
    case Full(book) => held[key := SidesOf(book)]
    case Silence => held
    case Changes(bids, asks) =>
      if key !in held then held
      else held[key := Sides(AppliedAll(held[key].bids, bids), AppliedAll(held[key].asks, asks))]
  }

  function Step(l: Link, e: Event): Link
  {
    match e
    case Restart => l.(sent := map[])
    case Tick(key, book, message) => Link(l.sent[key := SidesOf(book)], Received(l.held, key, message))
  }

  function Run(l: Link, es: seq<Event>): Link
    decreases |es|
  {
    if es == [] then l else Step(Run(l, es[..|es| - 1]), es[|es| - 1])
  }

  ghost predicate Plausible(l: Link, es: seq<Event>)
    decreases |es|
  {
    es == [] || (Plausible(l, es[..|es| - 1]) && Sendable(Run(l, es[..|es| - 1]).sent, es[|es| - 1]) &&
                 (es[|es| - 1].Tick? ==> OnLotsBoth(SidesOf(es[|es| - 1].book))))
  }

  predicate SameBook(a: Sides, b: Sides) { Live(a.bids) == Live(b.bids) && Live(a.asks) == Live(b.asks) }

  /** Of every book the server thinks sent, the client has the same copy. */
  predicate InStep(l: Link)
  {
    forall key :: key in l.sent ==>
      key in l.held && SameBook(l.held[key], l.sent[key]) && OnLots(l.sent[key].bids) && OnLots(l.sent[key].asks)
  }

  lemma StepInStep(l: Link, e: Event)
    requires InStep(l) && Sendable(l.sent, e)
    requires e.Tick? ==> OnLots(SidesOf(e.book).bids) && OnLots(SidesOf(e.book).asks)
    ensures InStep(Step(l, e))
  {
    hide Live, Encodes, OnLots, SideOfLevels, AppliedAll;
    if e.Tick? && e.key in l.sent {
      var was, now := l.sent[e.key], SidesOf(e.book);
      var bids := if e.message.Changes? then e.message.bids else [];
      var asks := if e.message.Changes? then e.message.asks else [];
      DecodesEncoded(l.held[e.key].bids, bids, was.bids, now.bids);
      DecodesEncoded(l.held[e.key].asks, asks, was.asks, now.asks);
      AppliedNothing(l.held[e.key].bids);
      AppliedNothing(l.held[e.key].asks);
    }
  }

  lemma AppliedNothing(s: Side)
    ensures AppliedAll(s, []) == s
  {
  }

  lemma {:induction false} RunInStep(l: Link, es: seq<Event>)
    requires InStep(l) && Plausible(l, es)
    ensures InStep(Run(l, es))
    decreases |es|
  {
    hide InStep, Sendable, OnLots;
    if es != [] {
      RunInStep(l, es[..|es| - 1]);
      StepInStep(Run(l, es[..|es| - 1]), es[|es| - 1]);
    }
  }

  /** After any number of ticks and restarts, a client connected from the start holds every book
      as last broadcast, apart from levels of quantity zero. */
  lemma {:induction false} ClientHoldsServerBook(es: seq<Event>, k: nat, key: string)
    requires Plausible(Link(map[], map[]), es) && k < |es| && es[k].Tick? && es[k].key == key
    requires forall j :: k < j < |es| ==> es[j].Restart? || es[j].key != key
    ensures var held := Run(Link(map[], map[]), es).held;
            key in held && SameBook(held[key], SidesOf(es[k].book))
    decreases |es|
  {
    hide InStep, SidesOf, SameBook, Sendable, OnLots, Received;
    var start: Link := Link(map[], map[]);
    var before, last := es[..|es| - 1], es[|es| - 1];
    if k + 1 < |es| {
      ClientHoldsServerBook(before, k, key);
      HeldAside(Run(start, before), last, key);
    } else {
      NothingSent();
      RunInStep(start, es);
      InStepMeans(Run(start, es), key);
    }
  }

  /** What is not about a book leaves the client's copy of it alone. */
  lemma HeldAside(l: Link, e: Event, key: string)
    requires key in l.held && (e.Restart? || e.key != key)
    ensures key in Step(l, e).held && Step(l, e).held[key] == l.held[key]
  {
  }

  lemma NothingSent()
    ensures InStep(Link(map[], map[]))
  {
  }

  lemma InStepMeans(l: Link, key: string)
    requires InStep(l) && key in l.sent
    ensures key in l.held && SameBook(l.held[key], l.sent[key])
  {
  }

  /** Books from the cache qualify: their quantities lie on lots, whatever the history. */
  lemma {:induction false} SideOnLots(levels: seq<Level>)
    requires Filled(levels)
    ensures OnLots(SideOfLevels(levels))
    decreases |levels|
  {
    hide OnLot;
    if levels != [] { SideOnLots(levels[..|levels| - 1]); }
  }

  lemma CachedBooksQualify(qs: seq<Quote>)
    requires qs != [] && forall k :: 0 <= k < |qs| ==> Proper(qs[k])
    ensures var cached := OrderBooks.Run(None, qs);
            cached.Some? && OnLots(SidesOf(cached.value).bids) && OnLots(SidesOf(cached.value).asks)
  {
    EveryBookTidy(qs);
    var b := OrderBooks.Run(None, qs).value;
    SideOnLots(b.bids);
    SideOnLots(b.asks);
  }

  // ------------------------------------------------------------ the list-based client

  /** The web client keeps a list of levels and looks a price up from the front. */
  function Find(levels: seq<Level>, p: real): int
    ensures -1 <= Find(levels, p) < |levels|
    ensures Find(levels, p) >= 0 ==> levels[Find(levels, p)].price == p
    decreases |levels|
  {
    if levels == [] then -1
    else if levels[0].price == p then 0
    else var i := Find(levels[1..], p); if i < 0 then -1 else i + 1
  }

  function ListApplied(levels: seq<Level>, c: Change): seq<Level>
  {
    var i := Find(levels, c.p);
    if c.q > 0.0 then (if i >= 0 then levels[i := Level(c.p, c.q)] else levels + [Level(c.p, c.q)])
    else if i >= 0 then Without(levels, i) else levels
  }

  predicate DistinctPrices(levels: seq<Level>)
  {
    forall i, j :: 0 <= i < j < |levels| ==> levels[i].price != levels[j].price
  }

  lemma {:induction false} FindSome(levels: seq<Level>, k: nat)
    requires k < |levels| && DistinctPrices(levels)
    ensures Find(levels, levels[k].price) == k
    decreases |levels|
  {
    if k > 0 { FindSome(levels[1..], k - 1); }
  }

  lemma {:induction false} FindNone(levels: seq<Level>, p: real)
    ensures Find(levels, p) < 0 <==> forall k :: 0 <= k < |levels| ==> levels[k].price != p
    decreases |levels|
  {
    if levels != [] { FindNone(levels[1..], p); }
  }

  /** A side describes a list when it has each level's quantity under its price, and no more. */
  predicate Describes(s: Side, levels: seq<Level>)
  {
    (forall k :: 0 <= k < |levels| ==> levels[k].price in s && s[levels[k].price] == levels[k].quantity) &&
    (forall p :: p in s ==> exists k :: 0 <= k < |levels| && levels[k].price == p)
  }

  lemma {:induction false} SideDescribes(levels: seq<Level>)
    requires DistinctPrices(levels)
    ensures Describes(SideOfLevels(levels), levels)
    decreases |levels|
  {
    if levels != [] {
      var t := levels[..|levels| - 1];
      SideDescribes(t);
      assert forall k :: 0 <= k < |t| ==> t[k] == levels[k];
    }
  }

  lemma DescribedOnce(s: Side, t: Side, levels: seq<Level>)
    requires Describes(s, levels) && Describes(t, levels)
    ensures s == t
  {
    assert forall p :: p in s ==> p in t && s[p] == t[p];
    assert forall p :: p in t ==> p in s;
  }

  lemma ListSet(levels: seq<Level>, s: Side, i: nat, q: real)
    requires DistinctPrices(levels) && Describes(s, levels) && i < |levels|
    ensures var p := levels[i].price; var after := levels[i := Level(p, q)];
            DistinctPrices(after) && Describes(s[p := q], after)
  {
    var p := levels[i].price;
    var after := levels[i := Level(p, q)];
    assert forall k :: 0 <= k < |levels| ==> after[k].price == levels[k].price;
  }

  lemma ListAdded(levels: seq<Level>, s: Side, l: Level)
    requires DistinctPrices(levels) && Describes(s, levels)
    requires forall k :: 0 <= k < |levels| ==> levels[k].price != l.price
    ensures DistinctPrices(levels + [l]) && Describes(s[l.price := l.quantity], levels + [l])
  {
    var after := levels + [l];
    assert after[|levels|] == l && forall k :: 0 <= k < |levels| ==> after[k] == levels[k];
  }

  function Without(levels: seq<Level>, i: nat): (after: seq<Level>)
    requires i < |levels|
    ensures |after| == |levels| - 1
    ensures forall k :: 0 <= k < |after| ==> after[k] == levels[if k < i then k else k + 1]
  {
    levels[..i] + levels[i + 1..]
  }

  lemma RemovedDistinct(levels: seq<Level>, i: nat)
    requires DistinctPrices(levels) && i < |levels|
    ensures DistinctPrices(Without(levels, i))
    ensures forall k :: 0 <= k < |levels| - 1 ==> Without(levels, i)[k].price != levels[i].price
  {
  }

  lemma ListRemoved(levels: seq<Level>, s: Side, i: nat)
    requires DistinctPrices(levels) && Describes(s, levels) && i < |levels|
    ensures DistinctPrices(Without(levels, i)) && Describes(s - {levels[i].price}, Without(levels, i))
  {
    hide Without, DistinctPrices;
    RemovedDistinct(levels, i);
    var after := Without(levels, i);
    forall q | q in s - {levels[i].price} ensures exists k :: 0 <= k < |after| && after[k].price == q {
      var k :| 0 <= k < |levels| && levels[k].price == q;
      assert after[if k < i then k else k - 1].price == q;
    }
  }

  lemma AbsentStays(levels: seq<Level>, s: Side, p: real)
    requires Describes(s, levels) && forall k :: 0 <= k < |levels| ==> levels[k].price != p
    ensures s - {p} == s
  {
  }

  lemma ListDescribed(levels: seq<Level>, s: Side, c: Change)
    requires DistinctPrices(levels) && Describes(s, levels)
    ensures DistinctPrices(ListApplied(levels, c)) && Describes(Applied(s, c), ListApplied(levels, c))
  {
    hide DistinctPrices, Describes, Without;
    var i := Find(levels, c.p);
    FindNone(levels, c.p);
    if i < 0 {
      if c.q > 0.0 { ListAdded(levels, s, Level(c.p, c.q)); }
      else { AbsentStays(levels, s, c.p); }
    } else if c.q > 0.0 {
      ListSet(levels, s, i, c.q);
    } else {
      ListRemoved(levels, s, i);
    }
  }

  /** On a list without repeated prices the list client does what the dictionary client does, and
      keeps the prices distinct. */
  lemma ListClientAgrees(levels: seq<Level>, c: Change)
    requires DistinctPrices(levels)
    ensures DistinctPrices(ListApplied(levels, c))
    ensures SideOfLevels(ListApplied(levels, c)) == Applied(SideOfLevels(levels), c)
  {
    hide DistinctPrices, Describes;
    SideDescribes(levels);
    ListDescribed(levels, SideOfLevels(levels), c);
    SideDescribes(ListApplied(levels, c));
    DescribedOnce(SideOfLevels(ListApplied(levels, c)), Applied(SideOfLevels(levels), c), ListApplied(levels, c));
  }

  /** Deleting a repeated price takes out its first level only: the later one stays. */
  lemma RepeatedPriceLingers(levels: seq<Level>, i: nat, j: nat)
    requires i < j < |levels| && levels[i].price == levels[j].price
    ensures var c := Change(levels[i].price, 0.0);
            c.p in SideOfLevels(ListApplied(levels, c)) && c.p !in Applied(SideOfLevels(levels), c)
  {
    hide Find, SideOfLevels, Without;
    var p := levels[i].price;
    FindFirst(levels, p, i);
    var k := Find(levels, p);
    var after := Without(levels, k);
    assert after[j - 1] == levels[j];
    PriceListed(after, j - 1);
  }

  lemma {:induction false} FindFirst(levels: seq<Level>, p: real, i: nat)
    requires i < |levels| && levels[i].price == p
    ensures 0 <= Find(levels, p) <= i
    decreases |levels|
  {
    if levels[0].price != p { FindFirst(levels[1..], p, i - 1); }
  }

  lemma {:induction false} PriceListed(levels: seq<Level>, k: nat)
    requires k < |levels|
    ensures levels[k].price in SideOfLevels(levels)
    decreases |levels|
  {
    if k < |levels| - 1 { PriceListed(levels[..|levels| - 1], k); }
  }

  /** The list client does what the dictionary client does, whatever the change, if and only if no
      price is repeated in its list. */
  lemma ListClientAgreesIff(levels: seq<Level>)
    ensures (forall c :: SideOfLevels(ListApplied(levels, c)) == Applied(SideOfLevels(levels), c))
            <==> DistinctPrices(levels)
  {
    hide ListApplied, SideOfLevels, Applied;
    if DistinctPrices(levels) {
      forall c ensures SideOfLevels(ListApplied(levels, c)) == Applied(SideOfLevels(levels), c) {
        ListClientAgrees(levels, c);
      }
    } else {
      var i, j :| 0 <= i < j < |levels| && levels[i].price == levels[j].price;
      RepeatedPriceLingers(levels, i, j);
    }
  }

  // ----------------------------------------------------- the list clients over whole runs

  /** The web client sorts a side when a message has been applied; the trade bot moves each new
      level up to its place. */
  datatype Client = Web | Bot

  function BotApplied(highFirst: bool, levels: seq<Level>, c: Change): seq<Level>
  {
    if c.q > 0.0 && Find(levels, c.p) < 0 then Inserted(highFirst, levels, Level(c.p, c.q))
    else ListApplied(levels, c)
  }

  function Worked(client: Client, highFirst: bool, levels: seq<Level>, cs: seq<Change>): seq<Level>
    decreases |cs|
  {
    if cs == [] then levels
    else
      var before, c := Worked(client, highFirst, levels, cs[..|cs| - 1]), cs[|cs| - 1];
      if client == Web then ListApplied(before, c) else BotApplied(highFirst, before, c)
  }

  function ListSide(client: Client, highFirst: bool, levels: seq<Level>, cs: seq<Change>): seq<Level>
  {
    var after := Worked(client, highFirst, levels, cs);
    if client == Web then Sorted(highFirst, after) else after
  }

  function ListReceived(client: Client, lists: map<string, Book>, key: string, m: Message): map<string, Book>
  {
    match m
    case Full(book) => lists[key := book]
    case Silence => lists
    case Changes(bids, asks) =>
      if key !in lists then lists
      else lists[key := Book(ListSide(client, true, lists[key].bids, bids),
                             ListSide(client, false, lists[key].asks, asks))]
  }

  function ListRun(client: Client, es: seq<Event>): map<string, Book>
    decreases |es|
  {
    if es == [] then map[]
    else
      var before, e := ListRun(client, es[..|es| - 1]), es[|es| - 1];
      if e.Restart? then before else ListReceived(client, before, e.key, e.message)
  }

  predicate DistinctBook(b: Book) { DistinctPrices(b.bids) && DistinctPrices(b.asks) }

  predicate OrderedBook(b: Book) { Ordered(true, b.bids) && Ordered(false, b.asks) }

  /** No full book that was sent repeats a price on a side. */
  predicate DistinctFulls(es: seq<Event>)
  {
    forall k :: 0 <= k < |es| && es[k].Tick? && es[k].message.Full? ==> DistinctBook(es[k].message.book)
  }

  predicate OrderedFulls(es: seq<Event>)
  {
    forall k :: 0 <= k < |es| && es[k].Tick? && es[k].message.Full? ==> OrderedBook(es[k].message.book)
  }

  lemma Twice<T>(s: seq<T>, i: nat, j: nat)
    requires i < j < |s| && s[i] == s[j]
    ensures multiset(s)[s[i]] >= 2
  {
    assert s == s[..j] + s[j..] && s[..j][i] == s[i] && s[j..][0] == s[j];
    assert s[i] in multiset(s[..j]) && s[i] in multiset(s[j..]);
  }

  lemma TwoPlaces<T>(s: seq<T>, x: T)
    requires multiset(s)[x] >= 2
    ensures exists i, j :: 0 <= i < j < |s| && s[i] == x && s[j] == x
  {
    assert x in s;
    var i :| 0 <= i < |s| && s[i] == x;
    assert s == s[..i] + [x] + s[i + 1..];
    assert x in s[..i] + s[i + 1..];
  }

  predicate Repeats(levels: seq<Level>, p: real)
  {
    exists i, j :: 0 <= i < j < |levels| && levels[i].price == p && levels[j].price == p
  }

  predicate Shows(levels: seq<Level>, p: real) { exists k :: 0 <= k < |levels| && levels[k].price == p }

  /** Rearranging a list neither makes nor removes a repeated price. */
  lemma RepeatMoves(s: seq<Level>, t: seq<Level>, p: real)
    requires multiset(s) == multiset(t) && Repeats(t, p)
    ensures Repeats(s, p)
  {
    var i, j :| 0 <= i < j < |t| && t[i].price == p && t[j].price == p;
    if t[i] == t[j] {
      Twice(t, i, j);
      TwoPlaces(s, t[i]);
    } else {
      assert t[i] in multiset(s) && t[j] in multiset(s);
      var a :| 0 <= a < |s| && s[a] == t[i];
      var b :| 0 <= b < |s| && s[b] == t[j];
      assert s[if a < b then a else b].price == s[if a < b then b else a].price == p;
    }
  }

  lemma Rearranged(s: seq<Level>, t: seq<Level>)
    requires multiset(s) == multiset(t) && DistinctPrices(s)
    ensures DistinctPrices(t) && SideOfLevels(s) == SideOfLevels(t)
  {
    forall i, j | 0 <= i < j < |t| ensures t[i].price != t[j].price {
      if t[i].price == t[j].price { RepeatMoves(s, t, t[i].price); }
    }
    SideDescribes(s);
    SideDescribes(t);
    forall k | 0 <= k < |s| ensures s[k] in t { assert s[k] in multiset(t); }
    forall k | 0 <= k < |t| ensures t[k] in s { assert t[k] in multiset(s); }
    DescribesMoved(SideOfLevels(t), s, t);
    DescribedOnce(SideOfLevels(s), SideOfLevels(t), s);
  }

  lemma DescribesMoved(d: Side, s: seq<Level>, t: seq<Level>)
    requires Describes(d, t)
    requires (forall k :: 0 <= k < |s| ==> s[k] in t) && (forall k :: 0 <= k < |t| ==> t[k] in s)
    ensures Describes(d, s)
  {
    forall p | p in d ensures exists k :: 0 <= k < |s| && s[k].price == p {
      var k :| 0 <= k < |t| && t[k].price == p;
      assert t[k] in s;
    }
  }

  lemma {:induction false} InsertedKeeps(highFirst: bool, s: seq<Level>, x: Level)
    ensures multiset(Inserted(highFirst, s, x)) == multiset(s + [x])
    decreases |s|
  {
    if s != [] {
      InsertedKeeps(highFirst, s[..|s| - 1], x);
      assert s == s[..|s| - 1] + [s[|s| - 1]];
    }
  }

  lemma BotAgrees(highFirst: bool, levels: seq<Level>, c: Change)
    requires DistinctPrices(levels)
    ensures DistinctPrices(BotApplied(highFirst, levels, c))
    ensures SideOfLevels(BotApplied(highFirst, levels, c)) == Applied(SideOfLevels(levels), c)
  {
    ListClientAgrees(levels, c);
    InsertedKeeps(highFirst, levels, Level(c.p, c.q));
    if c.q > 0.0 && Find(levels, c.p) < 0 {
      Rearranged(ListApplied(levels, c), BotApplied(highFirst, levels, c));
    }
  }

  lemma {:induction false} WorkedAgrees(client: Client, highFirst: bool, levels: seq<Level>, cs: seq<Change>)
    requires DistinctPrices(levels)
    ensures DistinctPrices(Worked(client, highFirst, levels, cs))
    ensures SideOfLevels(Worked(client, highFirst, levels, cs)) == AppliedAll(SideOfLevels(levels), cs)
    decreases |cs|
  {
    hide DistinctPrices, SideOfLevels, ListApplied, BotApplied, Applied;
    if cs != [] {
      var before := Worked(client, highFirst, levels, cs[..|cs| - 1]);
      WorkedAgrees(client, highFirst, levels, cs[..|cs| - 1]);
      ListClientAgrees(before, cs[|cs| - 1]);
      BotAgrees(highFirst, before, cs[|cs| - 1]);
    }
  }

  lemma ListSideAgrees(client: Client, highFirst: bool, levels: seq<Level>, cs: seq<Change>)
    requires DistinctPrices(levels)
    ensures DistinctPrices(ListSide(client, highFirst, levels, cs))
    ensures SideOfLevels(ListSide(client, highFirst, levels, cs)) == AppliedAll(SideOfLevels(levels), cs)
  {
    hide DistinctPrices, SideOfLevels, AppliedAll;
    var after := Worked(client, highFirst, levels, cs);
    WorkedAgrees(client, highFirst, levels, cs);
    SortedOrdered(highFirst, after);
    Rearranged(after, Sorted(highFirst, after));
  }

  /** If no full book repeats a price, a list client has after every message the lists of distinct
      prices that read as what the dictionary client holds. */
  lemma {:induction false} ListClientsFollow(client: Client, es: seq<Event>)
    requires DistinctFulls(es)
    ensures var lists, held := ListRun(client, es), Run(Link(map[], map[]), es).held;
            lists.Keys == held.Keys &&
            forall key :: key in lists ==> DistinctBook(lists[key]) && SidesOf(lists[key]) == held[key]
    decreases |es|
  {
    hide DistinctPrices, SideOfLevels, AppliedAll, ListSide;
    if es != [] {
      var before, e := es[..|es| - 1], es[|es| - 1];
      ListClientsFollow(client, before);
      var lists := ListRun(client, before);
      if e.Tick? && e.message.Changes? && e.key in lists {
        ListSideAgrees(client, true, lists[e.key].bids, e.message.bids);
        ListSideAgrees(client, false, lists[e.key].asks, e.message.asks);
      }
    }
  }

  /** So both clients hold every book as last broadcast. */
  lemma ListClientsHoldServerBook(client: Client, es: seq<Event>, k: nat, key: string)
    requires Plausible(Link(map[], map[]), es) && k < |es| && es[k].Tick? && es[k].key == key
    requires forall j :: k < j < |es| ==> es[j].Restart? || es[j].key != key
    requires DistinctFulls(es)
    ensures var lists := ListRun(client, es);
            key in lists && DistinctBook(lists[key]) && SameBook(SidesOf(lists[key]), SidesOf(es[k].book))
  {
    hide Plausible, DistinctFulls, SameBook, SidesOf, DistinctBook;
    ClientHoldsServerBook(es, k, key);
    ListClientsFollow(client, es);
  }

  /** Where a change leaves the level at `k`, when it is not the one found or of another price. */
  function Place(levels: seq<Level>, c: Change, k: nat): nat
  {
    var i := Find(levels, c.p);
    if c.q <= 0.0 && 0 <= i < k then k - 1 else k
  }

  lemma PlaceKept(levels: seq<Level>, c: Change, k: nat)
    requires k < |levels| && k != Find(levels, c.p)
    ensures var after := ListApplied(levels, c);
            Place(levels, c, k) < |after| && after[Place(levels, c, k)] == levels[k]
  {
    hide Find;
  }

  /** A change leaves one level of a repeated price at least, and both when it is of another. */
  lemma RepeatsOutlast(levels: seq<Level>, c: Change, p: real)
    requires Repeats(levels, p)
    ensures c.p != p ==> Repeats(ListApplied(levels, c), p)
    ensures Shows(ListApplied(levels, c), p)
  {
    hide Find, ListApplied;
    var a, b :| 0 <= a < b < |levels| && levels[a].price == p && levels[b].price == p;
    var i := Find(levels, c.p);
    if a != i { PlaceKept(levels, c, a); }
    if b != i { PlaceKept(levels, c, b); }
    if c.p != p { assert Place(levels, c, a) < Place(levels, c, b); }
  }

  lemma ShowOutlasts(levels: seq<Level>, c: Change, p: real)
    requires Shows(levels, p) && c.p != p
    ensures Shows(ListApplied(levels, c), p)
  {
    hide Find, ListApplied;
    var k :| 0 <= k < |levels| && levels[k].price == p;
    PlaceKept(levels, c, k);
  }

  lemma ShowMoves(s: seq<Level>, t: seq<Level>, p: real)
    requires multiset(s) == multiset(t) && Shows(t, p)
    ensures Shows(s, p)
  {
    var k :| 0 <= k < |t| && t[k].price == p;
    assert t[k] in multiset(s);
  }

  lemma BotRearranges(highFirst: bool, levels: seq<Level>, c: Change)
    ensures multiset(BotApplied(highFirst, levels, c)) == multiset(ListApplied(levels, c))
  {
    InsertedKeeps(highFirst, levels, Level(c.p, c.q));
  }

  lemma {:induction false} RepeatOutlasts(client: Client, highFirst: bool, levels: seq<Level>, cs: seq<Change>, p: real)
    requires Repeats(levels, p) && Unrepeated(cs)
    ensures Shows(Worked(client, highFirst, levels, cs), p)
    ensures !Lists(cs, p) ==> Repeats(Worked(client, highFirst, levels, cs), p)
    decreases |cs|
  {
    hide Repeats, Shows, ListApplied, BotApplied;
    RepeatShows(levels, p);
    if cs != [] {
      var ds, c := cs[..|cs| - 1], cs[|cs| - 1];
      assert forall i :: 0 <= i < |ds| ==> ds[i] == cs[i];
      assert c.p == p ==> !Lists(ds, p);
      assert Lists(ds, p) ==> Lists(cs, p);
      assert c.p == p ==> Lists(cs, p);
      var before := Worked(client, highFirst, levels, ds);
      RepeatOutlasts(client, highFirst, levels, ds, p);
      if Repeats(before, p) { RepeatsOutlast(before, c, p); }
      if c.p != p { ShowOutlasts(before, c, p); }
      BotRearranges(highFirst, before, c);
      if Shows(ListApplied(before, c), p) { ShowMoves(BotApplied(highFirst, before, c), ListApplied(before, c), p); }
      if Repeats(ListApplied(before, c), p) {
        RepeatMoves(BotApplied(highFirst, before, c), ListApplied(before, c), p);
      }
    }
  }

  /** The condition is needed: after a full book that repeats a price on a side, and any next book
      without that price, both clients still show it. */
  lemma RepeatedPriceOutlivesBook(client: Client, key: string, book: Book, next: Book, m: Message, p: real)
    requires Sendable(map[key := SidesOf(book)], Tick(key, next, m))
    ensures var lists := ListRun(client, [Tick(key, book, Full(book)), Tick(key, next, m)]);
            key in lists &&
            (Repeats(book.bids, p) && p !in SideOfLevels(next.bids) ==> Shows(lists[key].bids, p)) &&
            (Repeats(book.asks, p) && p !in SideOfLevels(next.asks) ==> Shows(lists[key].asks, p))
  {
    hide Repeats, Shows, SideOfLevels, Worked;
    var es := [Tick(key, book, Full(book)), Tick(key, next, m)];
    assert es[..1][..0] == [] && es[..1] == [es[0]];
    assert ListRun(client, es[..1]) == map[key := book];
    if Repeats(book.bids, p) { SideOutlasts(client, true, book.bids, if m.Changes? then m.bids else [], p); }
    if Repeats(book.asks, p) { SideOutlasts(client, false, book.asks, if m.Changes? then m.asks else [], p); }
    RepeatShows(book.bids, p);
    RepeatShows(book.asks, p);
  }

  lemma RepeatShows(levels: seq<Level>, p: real)
    ensures Repeats(levels, p) ==> Shows(levels, p)
  {
  }

  lemma SideOutlasts(client: Client, highFirst: bool, levels: seq<Level>, cs: seq<Change>, p: real)
    requires Repeats(levels, p) && Unrepeated(cs)
    ensures Shows(ListSide(client, highFirst, levels, cs), p)
  {
    hide Repeats, Shows;
    var after := Worked(client, highFirst, levels, cs);
    RepeatOutlasts(client, highFirst, levels, cs, p);
    SortedOrdered(highFirst, after);
    ShowMoves(Sorted(highFirst, after), after, p);
  }

  lemma BotOrdered(highFirst: bool, levels: seq<Level>, c: Change)
    requires Ordered(highFirst, levels)
    ensures Ordered(highFirst, BotApplied(highFirst, levels, c))
  {
    InsertedOrdered(highFirst, levels, Level(c.p, c.q));
  }

  lemma {:induction false} WorkedOrdered(highFirst: bool, levels: seq<Level>, cs: seq<Change>)
    requires Ordered(highFirst, levels)
    ensures Ordered(highFirst, Worked(Bot, highFirst, levels, cs))
    decreases |cs|
  {
    hide Ordered, BotApplied;
    if cs != [] {
      WorkedOrdered(highFirst, levels, cs[..|cs| - 1]);
      BotOrdered(highFirst, Worked(Bot, highFirst, levels, cs[..|cs| - 1]), cs[|cs| - 1]);
    }
  }

  /** A list client's sides stay in order of price if the full books came so, with or without
      repeated prices. */
  lemma {:induction false} ListClientsOrdered(client: Client, es: seq<Event>)
    requires OrderedFulls(es)
    ensures forall key :: key in ListRun(client, es) ==> OrderedBook(ListRun(client, es)[key])
    decreases |es|
  {
    hide Ordered, Worked, Sorted;
    if es != [] {
      var before, e := es[..|es| - 1], es[|es| - 1];
      ListClientsOrdered(client, before);
      var lists := ListRun(client, before);
      if e.Tick? && e.message.Changes? && e.key in lists {
        WorkedOrdered(true, lists[e.key].bids, e.message.bids);
        WorkedOrdered(false, lists[e.key].asks, e.message.asks);
        SortedOrdered(true, Worked(Web, true, lists[e.key].bids, e.message.bids));
        SortedOrdered(false, Worked(Web, false, lists[e.key].asks, e.message.asks));
      }
    }
  }

  /** Full books that repeat a price are sent: at a price of 5 the second and third bid round to
      4.99 and the second and third ask to 5.01, whatever the jitters and the depth of the book. */
  lemma FullBookRepeatsPrice(draws: seq<Draw>)
    requires |draws| >= 3
    requires forall k :: 0 <= k < |draws| ==> 0.0 <= draws[k].bidJitter < 0.3 && 0.0 <= draws[k].askJitter < 0.3
    ensures var book := FullBook(5.0, 0.8, draws); Repeats(book.bids, 4.99) && Repeats(book.asks, 5.01)
  {
    hide Repeats, Sorted;
    var half := HalfSpread(5.0, 0.8);
    assert half == 0.004;
    var bids, asks := RawBids(5.0, half, draws), RawAsks(5.0, half, draws);
    SecondAndThird(draws);
    SortedOrdered(true, bids);
    SortedOrdered(false, asks);
    RepeatMoves(Sorted(true, bids), bids, 4.99);
    RepeatMoves(Sorted(false, asks), asks, 5.01);
  }

  lemma SecondAndThird(draws: seq<Draw>)
    requires |draws| >= 3
    requires forall k :: 0 <= k < |draws| ==> 0.0 <= draws[k].bidJitter < 0.3 && 0.0 <= draws[k].askJitter < 0.3
    ensures Repeats(RawBids(5.0, 0.004, draws), 4.99) && Repeats(RawAsks(5.0, 0.004, draws), 5.01)
  {
    var bids, asks := RawBids(5.0, 0.004, draws), RawAsks(5.0, 0.004, draws);
    RoundsTo(5.0 - Offset(0.004, 1, draws[1].bidJitter), 499);
    RoundsTo(5.0 - Offset(0.004, 2, draws[2].bidJitter), 499);
    RoundsTo(5.0 + Offset(0.004, 1, draws[1].askJitter), 501);
    RoundsTo(5.0 + Offset(0.004, 2, draws[2].askJitter), 501);
    assert bids[1].price == 4.99 && bids[2].price == 4.99 && asks[1].price == 5.01 && asks[2].price == 5.01;
  }

  lemma RoundsTo(x: real, cents: int)
    requires x >= 1.0 && cents as real - 0.5 < x * 100.0 < cents as real + 0.5
    ensures Rounding.RoundPrice(x) == cents as real / 100.0
  {
    var n := Rounding.RoundHalfEven(x * 100.0);
    assert -1.0 < (n - cents) as real < 1.0;
  }

  // ------------------------------------------------------------------- the broadcaster

  class OrderbookBroadcaster {
    var lastOrderbooks: map<string, Sides>
    var bidBuffer: Side
    var askBuffer: Side

    constructor ()
      ensures lastOrderbooks == map[]
    {
      lastOrderbooks, bidBuffer, askBuffer := map[], map[], map[];
    }

    static method Collect(levels: seq<Level>) returns (side: Side)
      ensures side == SideOfLevels(levels)
    {
      side := map[];
      var i := 0;
      while i < |levels|
        invariant 0 <= i <= |levels| && side == SideOfLevels(levels[..i])
      {
        side := side[levels[i].price := levels[i].quantity];
        i := i + 1;
        assert levels[..i][..i - 1] == levels[..i - 1];
      }
      assert levels[..i] == levels;
    }

    /** The changed prices of one side: first those present, then those gone. */
    static method SideChanges(last: Side, current: Side) returns (changes: seq<Change>)
      ensures Encodes(changes, last, current)
    {
      hide Sound, Lists;
      changes := [];
      NoneListed(last, current);
      var todo := current.Keys;
      while todo != {}
        invariant todo <= current.Keys && Sound(changes, last, current)
        invariant forall p :: Lists(changes, p) <==> p in current && p !in todo && Differs(last, current, p)
        decreases |todo|
      {
        SomePrice(todo);
        var p :| p in todo;
        var qty := current[p];
        if p !in last || last[p] - qty > TOLERANCE || qty - last[p] > TOLERANCE {
          Extended(changes, Change(p, qty), last, current);
          changes := changes + [Change(p, qty)];
        }
        todo := todo - {p};
      }
      todo := last.Keys;
      while todo != {}
        invariant todo <= last.Keys && Sound(changes, last, current)
        invariant forall p ::
                    Lists(changes, p) <==> (if p in current then Differs(last, current, p) else p in last && p !in todo)
        decreases |todo|
      {
        SomePrice(todo);
        var p :| p in todo;
        if p !in current {
          Extended(changes, Change(p, 0.0), last, current);
          changes := changes + [Change(p, 0.0)];
        }
        todo := todo - {p};
      }
    }

    method ComputeDelta(key: string, book: Book) returns (message: Message)
      modifies this
      ensures Sendable(old(lastOrderbooks), Tick(key, book, message))
      ensures lastOrderbooks == old(lastOrderbooks)[key := SidesOf(book)]
    {
      hide Encodes;
      bidBuffer := Collect(book.bids);
      askBuffer := Collect(book.asks);
      if key !in lastOrderbooks {
        lastOrderbooks := lastOrderbooks[key := Sides(bidBuffer, askBuffer)];
        return Full(book);
      }
      var last := lastOrderbooks[key];
      var bidChanges := SideChanges(last.bids, bidBuffer);
      var askChanges := SideChanges(last.asks, askBuffer);
      lastOrderbooks := lastOrderbooks[key := Sides(bidBuffer, askBuffer)];
      if bidChanges == [] && askChanges == [] { return Silence; }
      return Changes(bidChanges, askChanges);
    }

    method ResetOrderbookDeltas()
      modifies this
      ensures Sendable(old(lastOrderbooks), Restart)
      ensures forall held :: Step(Link(old(lastOrderbooks), held), Restart) == Link(lastOrderbooks, held)
    {
      lastOrderbooks := map[];
    }
  }
}
