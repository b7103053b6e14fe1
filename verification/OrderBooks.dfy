/** Simulated order books: generated in full around a price, then kept in a cache and scaled in
    place to each new price. Random draws are inputs. */
module OrderBooks {
  import opened Basics
  import opened Rounding

  datatype Level = Level(price: real, quantity: real)

  datatype Book = Book(bids: seq<Level>, asks: seq<Level>)

  // -------------------------------------------------------------------- sorting

  /** Whether `a` may stand before `b` in a side whose best price is the highest (or lowest). */
  predicate Before(highFirst: bool, a: Level, b: Level) { if highFirst then a.price >= b.price else a.price <= b.price }

  predicate Ordered(highFirst: bool, s: seq<Level>)
  {
    forall i, j :: 0 <= i < j < |s| ==> Before(highFirst, s[i], s[j])
  }

  /** Stable: a level goes behind its equals. */
  function Inserted(highFirst: bool, s: seq<Level>, x: Level): seq<Level>
    decreases |s|
  {
    if s == [] || Before(highFirst, s[|s| - 1], x) then s + [x]
    else Inserted(highFirst, s[..|s| - 1], x) + [s[|s| - 1]]
  }

  function Sorted(highFirst: bool, s: seq<Level>): seq<Level>
    decreases |s|
  {
    if s == [] then [] else Inserted(highFirst, Sorted(highFirst, s[..|s| - 1]), s[|s| - 1])
  }

  lemma {:induction false} InsertedOrdered(highFirst: bool, s: seq<Level>, x: Level)
    requires Ordered(highFirst, s)
    ensures Ordered(highFirst, Inserted(highFirst, s, x))
    ensures multiset(Inserted(highFirst, s, x)) == multiset(s) + multiset{x}
    decreases |s|
  {
    if s != [] && !Before(highFirst, s[|s| - 1], x) {
      var t, z := s[..|s| - 1], s[|s| - 1];
      assert s == t + [z];
      InsertedOrdered(highFirst, t, x);
      var r := Inserted(highFirst, t, x);
      forall i | 0 <= i < |r| ensures Before(highFirst, r[i], z) {
        assert r[i] in multiset(r);
        if r[i] != x { assert r[i] in multiset(t) && r[i] in t; }
      }
    }
  }

  /** Sorting a side orders it and keeps every level. */
  lemma {:induction false} SortedOrdered(highFirst: bool, s: seq<Level>)
    ensures Ordered(highFirst, Sorted(highFirst, s)) && multiset(Sorted(highFirst, s)) == multiset(s)
    ensures |Sorted(highFirst, s)| == |s|
    decreases |s|
  {
    if s != [] {
      var t, x := s[..|s| - 1], s[|s| - 1];
      assert s == t + [x];
      SortedOrdered(highFirst, t);
      InsertedOrdered(highFirst, Sorted(highFirst, t), x);
    }
    assert |multiset(Sorted(highFirst, s))| == |multiset(s)|;
  }

  // --------------------------------------------------------------- full generation

  /** The random part of one level pair: two jitters in [0, 0.3), and the two quantities before
      rounding. */
  datatype Draw = Draw(bidJitter: real, askJitter: real, bidQuantity: real, askQuantity: real)

  predicate Fair(d: Draw)
  {
    0.0 <= d.bidJitter && 0.0 <= d.askJitter && 0.0 <= d.bidQuantity && 0.0 <= d.askQuantity
  }

  function HalfSpread(mid: real, volatility: real): real
  {
    var bps := if volatility * 10.0 > 1.0 then volatility * 10.0 else 1.0;
    mid * bps / 10000.0
  }

  /** How far the `i`th pair lies from the middle. */
  function Offset(half: real, i: nat, jitter: real): real { half * (1.0 + i as real * (1.0 + jitter)) }

  function RawBid(mid: real, half: real, draws: seq<Draw>, i: nat): Level
    requires i < |draws|
  {
    Level(RoundPrice(mid - Offset(half, i, draws[i].bidJitter)), Round4(draws[i].bidQuantity))
  }

  function RawAsk(mid: real, half: real, draws: seq<Draw>, i: nat): Level
    requires i < |draws|
  {
    Level(RoundPrice(mid + Offset(half, i, draws[i].askJitter)), Round4(draws[i].askQuantity))
  }

  function RawBids(mid: real, half: real, draws: seq<Draw>): seq<Level>
  {
    seq(|draws|, i requires 0 <= i < |draws| => RawBid(mid, half, draws, i))
  }

  function RawAsks(mid: real, half: real, draws: seq<Draw>): seq<Level>
  {
    seq(|draws|, i requires 0 <= i < |draws| => RawAsk(mid, half, draws, i))
  }

  function FullBook(mid: real, volatility: real, draws: seq<Draw>): Book
  {
    var half := HalfSpread(mid, volatility);
    Book(Sorted(true, RawBids(mid, half, draws)), Sorted(false, RawAsks(mid, half, draws)))
  }

  // ---------------------------------------------------------------- scaling in place

  function Moved(price: real, ratio: real): real { RoundPrice(price * ratio) }

  function Perturbed(quantity: real, noise: real): real { Round4(quantity * (0.9 + noise * 0.2)) }

  function ScaledLevel(l: Level, ratio: real, noise: real): Level
  {
    Level(Moved(l.price, ratio), Perturbed(l.quantity, noise))
  }

  function ScaledSide(side: seq<Level>, ratio: real, noise: nat -> real): seq<Level>
  {
    seq(|side|, i requires 0 <= i < |side| => ScaledLevel(side[i], ratio, noise(i)))
  }

  function Middle(b: Book): real
    requires b.bids != [] && b.asks != []
  {
    (b.bids[0].price + b.asks[0].price) / 2.0
  }

  function Scaled(b: Book, mid: real, noise: nat -> real): Book
    requires b.bids != [] && b.asks != [] && Middle(b) > 0.0
  {
    var ratio := mid / Middle(b);
    Book(ScaledSide(b.bids, ratio, noise), ScaledSide(b.asks, ratio, noise))
  }

  // --------------------------------------------------------------------- the cache

  /** One request for a book: the market price, and the draws either path may use. */
  datatype Quote = Quote(mid: real, volatility: real, draws: seq<Draw>, noise: nat -> real)

  /** Requests as the market makes them: a positive price and a book of some depth. */
  ghost predicate Proper(q: Quote)
  {
    q.mid > 0.0 && q.draws != [] && (forall d :: d in q.draws ==> Fair(d)) &&
    (forall i: nat :: 0.0 <= q.noise(i) < 1.0)
  }

  predicate Usable(cached: Option<Book>)
  {
    cached.Some? && cached.value.bids != [] && cached.value.asks != [] && Middle(cached.value) > 0.0
  }

  /** The book served; it is also what the cache holds afterwards, except that a zero price gets
      an empty book and leaves the cache alone. */
  function Served(cached: Option<Book>, q: Quote): Book
  {
    if q.mid == 0.0 then Book([], [])
    else if Usable(cached) then Scaled(cached.value, q.mid, q.noise)
    else FullBook(q.mid, q.volatility, q.draws)
  }

  function After(cached: Option<Book>, q: Quote): Option<Book>
  {
    if q.mid == 0.0 then cached else Some(Served(cached, q))
  }

  function Run(cached: Option<Book>, qs: seq<Quote>): Option<Book>
    decreases |qs|
  {
    if qs == [] then cached else After(Run(cached, qs[..|qs| - 1]), qs[|qs| - 1])
  }

  // ------------------------------------------------------------- what every book keeps

  predicate OnLot(quantity: real) { Round4(quantity) == quantity }

  predicate Filled(s: seq<Level>) { forall i :: 0 <= i < |s| ==> s[i].quantity >= 0.0 && OnLot(s[i].quantity) }

  /** Best prices first, sides not crossed, quantities non-negative multiples of a lot. */
  predicate Tidy(b: Book)
  {
    |b.bids| == |b.asks| > 0 && Ordered(true, b.bids) && Ordered(false, b.asks) &&
    b.bids[0].price <= b.asks[0].price && Filled(b.bids) && Filled(b.asks)
  }

  predicate Near(b: Book, mid: real)
    requires b.bids != [] && b.asks != []
  {
    -0.005 <= Middle(b) - mid <= 0.005
  }

  lemma MovedMonotone(a: real, b: real, ratio: real)
    requires a <= b && ratio > 0.0
    ensures Moved(a, ratio) <= Moved(b, ratio)
  {
    assert a * ratio <= b * ratio;
    RoundPriceMonotone(a * ratio, b * ratio);
  }

  lemma PerturbedKept(quantity: real, noise: real)
    requires quantity >= 0.0 && 0.0 <= noise < 1.0
    ensures Perturbed(quantity, noise) >= 0.0 && OnLot(Perturbed(quantity, noise))
  {
    var x := quantity * (0.9 + noise * 0.2);
    assert x >= 0.0;
    Round4Sign(x);
    LotOfRound(x);
  }

  /** A scaling changes a quantity by a tenth at most, up to half a lot, and either way: the middle
      noise leaves it where it was. */
  lemma PerturbedNear(quantity: real, noise: real)
    requires quantity >= 0.0 && 0.0 <= noise < 1.0
    ensures 0.9 * quantity - 0.00005 <= Perturbed(quantity, noise) <= 1.1 * quantity + 0.00005
    ensures Perturbed(quantity, 0.5) == Round4(quantity)
  {
    var x := quantity * (0.9 + noise * 0.2);
    assert 0.9 * quantity <= x <= 1.1 * quantity by { Between(quantity, 0.9 + noise * 0.2); }
    assert -0.00005 <= Round4(x) - x <= 0.00005;
  }

  lemma Between(q: real, c: real)
    requires q >= 0.0 && 0.9 <= c <= 1.1
    ensures 0.9 * q <= q * c <= 1.1 * q
  {
  }

  /** The scaled level of each level: its price moved by the ratio up to half a tick, its quantity
      within a tenth. */
  lemma ScaledNear(b: Book, mid: real, noise: nat -> real)
    requires Tidy(b) && Middle(b) > 0.0 && mid > 0.0 && forall i: nat :: 0.0 <= noise(i) < 1.0
    ensures var (r, ratio) := (Scaled(b, mid, noise), mid / Middle(b));
            && |r.bids| == |b.bids| && |r.asks| == |b.asks|
            && (forall i :: 0 <= i < |b.bids| ==> NearLevel(b.bids[i], r.bids[i], ratio))
            && (forall i :: 0 <= i < |b.asks| ==> NearLevel(b.asks[i], r.asks[i], ratio))
  {
    hide Ordered, OnLot, Perturbed, Moved;
    var ratio := mid / Middle(b);
    forall i | 0 <= i < |b.bids| ensures NearLevel(b.bids[i], Scaled(b, mid, noise).bids[i], ratio) {
      LevelNear(b.bids[i], ratio, noise(i));
    }
    forall i | 0 <= i < |b.asks| ensures NearLevel(b.asks[i], Scaled(b, mid, noise).asks[i], ratio) {
      LevelNear(b.asks[i], ratio, noise(i));
    }
  }

  lemma MovedNear(price: real, ratio: real)
    ensures -0.005 <= Moved(price, ratio) - price * ratio <= 0.005
  {
    var x := price * ratio;
    RoundPriceError(x);
  }

  predicate NearLevel(l: Level, r: Level, ratio: real)
  {
    && -0.005 <= r.price - l.price * ratio <= 0.005
    && 0.9 * l.quantity - 0.00005 <= r.quantity <= 1.1 * l.quantity + 0.00005
  }

  lemma LevelNear(l: Level, ratio: real, noise: real)
    requires l.quantity >= 0.0 && 0.0 <= noise < 1.0
    ensures NearLevel(l, ScaledLevel(l, ratio, noise), ratio)
  {
    MovedNear(l.price, ratio);
    hide Moved, Perturbed;
    PerturbedNear(l.quantity, noise);
  }

  lemma LotOfRound(x: real)
    ensures OnLot(Round4(x))
  {
  }

  lemma ScaledSideKeeps(highFirst: bool, side: seq<Level>, ratio: real, noise: nat -> real)
    requires Ordered(highFirst, side) && Filled(side) && ratio > 0.0 && forall i: nat :: 0.0 <= noise(i) < 1.0
    ensures Ordered(highFirst, ScaledSide(side, ratio, noise)) && Filled(ScaledSide(side, ratio, noise))
  {
    hide Moved, Perturbed, OnLot;
    var s := ScaledSide(side, ratio, noise);
    forall i, j | 0 <= i < j < |s| ensures Before(highFirst, s[i], s[j]) {
      assert Before(highFirst, side[i], side[j]);
      if highFirst { MovedMonotone(side[j].price, side[i].price, ratio); }
      else { MovedMonotone(side[i].price, side[j].price, ratio); }
    }
    forall i | 0 <= i < |s| ensures s[i].quantity >= 0.0 && OnLot(s[i].quantity) {
      PerturbedKept(side[i].quantity, noise(i));
    }
  }

  /** Rounding moves each best price by half a tick at most, so the middle too -- from the exact
      price, not from the last book's middle. */
  lemma MovedMiddle(bid: real, ask: real, middle: real, mid: real, ratio: real)
    requires bid + ask == 2.0 * middle && ratio * middle == mid
    ensures -0.005 <= (Moved(bid, ratio) + Moved(ask, ratio)) / 2.0 - mid <= 0.005
  {
    var b, a := bid * ratio, ask * ratio;
    assert b + a == (bid + ask) * ratio == 2.0 * mid;
    RoundPriceError(b);
    RoundPriceError(a);
  }

  lemma RatioFacts(mid: real, middle: real)
    requires mid > 0.0 && middle > 0.0
    ensures mid / middle > 0.0 && (mid / middle) * middle == mid
  {
  }

  lemma ScaledKeeps(b: Book, mid: real, noise: nat -> real)
    requires Tidy(b) && Middle(b) > 0.0 && mid > 0.0 && forall i: nat :: 0.0 <= noise(i) < 1.0
    ensures Tidy(Scaled(b, mid, noise)) && Near(Scaled(b, mid, noise), mid)
  {
    hide Moved, Perturbed, Ordered, Filled;
    var ratio := mid / Middle(b);
    RatioFacts(mid, Middle(b));
    MovedMiddle(b.bids[0].price, b.asks[0].price, Middle(b), mid, ratio);
    ScaledSideKeeps(true, b.bids, ratio, noise);
    ScaledSideKeeps(false, b.asks, ratio, noise);
    MovedMonotone(b.bids[0].price, b.asks[0].price, ratio);
  }

  lemma OffsetGrows(half: real, i: nat, jitter: real)
    requires half > 0.0 && jitter >= 0.0
    ensures Offset(half, i, jitter) >= half && Offset(half, 0, jitter) == half
  {
  }

  lemma HalfSpreadPositive(mid: real, volatility: real)
    requires mid > 0.0
    ensures HalfSpread(mid, volatility) > 0.0
  {
  }

  /** The first pair is the best one, whatever the jitters of the others. */
  lemma BestIsFirst(highFirst: bool, raw: seq<Level>)
    requires raw != [] && forall i :: 0 <= i < |raw| ==> Before(highFirst, raw[0], raw[i])
    ensures |Sorted(highFirst, raw)| == |raw| && Sorted(highFirst, raw)[0].price == raw[0].price
  {
    SortedOrdered(highFirst, raw);
    var s := Sorted(highFirst, raw);
    assert raw[0] in multiset(raw) && raw[0] in multiset(s) && raw[0] in s;
    var k :| 0 <= k < |s| && s[k] == raw[0];
    assert s[0] in multiset(s) && s[0] in multiset(raw) && s[0] in raw;
    assert Before(highFirst, s[0], s[k]);
  }

  lemma SortedFilled(highFirst: bool, raw: seq<Level>)
    requires Filled(raw)
    ensures Filled(Sorted(highFirst, raw))
  {
    SortedOrdered(highFirst, raw);
    var s := Sorted(highFirst, raw);
    forall i | 0 <= i < |s| ensures s[i].quantity >= 0.0 && OnLot(s[i].quantity) {
      assert s[i] in multiset(s) && s[i] in multiset(raw) && s[i] in raw;
    }
  }

  lemma RawFacts(mid: real, half: real, draws: seq<Draw>)
    requires half > 0.0 && draws != [] && forall d :: d in draws ==> Fair(d)
    ensures var bids, asks := RawBids(mid, half, draws), RawAsks(mid, half, draws);
            Filled(bids) && Filled(asks) &&
            bids[0].price == RoundPrice(mid - half) && asks[0].price == RoundPrice(mid + half) &&
            (forall i :: 0 <= i < |bids| ==> Before(true, bids[0], bids[i]) && Before(false, asks[0], asks[i]))
  {
    hide RoundPrice, Round4, Offset;
    assert draws[0] in draws;
    var bids, asks := RawBids(mid, half, draws), RawAsks(mid, half, draws);
    OffsetGrows(half, 0, draws[0].bidJitter);
    OffsetGrows(half, 0, draws[0].askJitter);
    forall i | 0 <= i < |draws|
      ensures Before(true, bids[0], bids[i]) && Before(false, asks[0], asks[i])
      ensures bids[i].quantity >= 0.0 && OnLot(bids[i].quantity) && asks[i].quantity >= 0.0 && OnLot(asks[i].quantity)
    {
      assert draws[i] in draws;
      OffsetGrows(half, i, draws[i].bidJitter);
      OffsetGrows(half, i, draws[i].askJitter);
      RoundPriceMonotone(mid - Offset(half, i, draws[i].bidJitter), mid - half);
      RoundPriceMonotone(mid + half, mid + Offset(half, i, draws[i].askJitter));
      Round4Sign(draws[i].bidQuantity);
      Round4Sign(draws[i].askQuantity);
      LotOfRound(draws[i].bidQuantity);
      LotOfRound(draws[i].askQuantity);
    }
  }

  lemma FullKeeps(mid: real, volatility: real, draws: seq<Draw>)
    requires mid > 0.0 && draws != [] && forall d :: d in draws ==> Fair(d)
    ensures Tidy(FullBook(mid, volatility, draws)) && Near(FullBook(mid, volatility, draws), mid)
  {
    hide RoundPrice, Sorted, Filled, Ordered, HalfSpread;
    var half := HalfSpread(mid, volatility);
    var bids, asks := RawBids(mid, half, draws), RawAsks(mid, half, draws);
    HalfSpreadPositive(mid, volatility);
    RawFacts(mid, half, draws);
    BestIsFirst(true, bids);
    BestIsFirst(false, asks);
    SortedFilled(true, bids);
    SortedFilled(false, asks);
    SortedOrdered(true, bids);
    SortedOrdered(false, asks);
    RoundPriceMonotone(mid - half, mid + half);
    RoundPriceError(mid - half);
    RoundPriceError(mid + half);
  }

  /** The best quotes of a generated book lie at half the spread from the price -- ten times the
      volatility in ten-thousandths, one at least -- and every level of the pair `i` between `i + 1`
      and `1.3 * i + 1` times as far, up to half a tick. */
  lemma FullSpread(mid: real, volatility: real, draws: seq<Draw>)
    requires mid > 0.0 && draws != [] && forall d :: d in draws ==> Fair(d) && d.bidJitter <= 0.3 && d.askJitter <= 0.3
    ensures var half := mid * (if volatility > 0.1 then volatility * 10.0 else 1.0) / 10000.0;
            var b := FullBook(mid, volatility, draws);
            && |b.bids| == |b.asks| == |draws|
            && b.bids[0].price == RoundPrice(mid - half) && b.asks[0].price == RoundPrice(mid + half)
            && (forall i :: 0 <= i < |draws| ==>
                 && Placed(half, i, mid - RawBid(mid, half, draws, i).price)
                 && Placed(half, i, RawAsk(mid, half, draws, i).price - mid)
                 && RawBid(mid, half, draws, i).quantity == Round4(draws[i].bidQuantity)
                 && RawAsk(mid, half, draws, i).quantity == Round4(draws[i].askQuantity))
            && multiset(b.bids) == multiset(RawBids(mid, half, draws))
            && multiset(b.asks) == multiset(RawAsks(mid, half, draws))
  {
    hide RoundPrice, Sorted, Ordered, Offset, Filled, Round4, HalfSpread, Placed, Before;
    var half := HalfSpread(mid, volatility);
    HalfSpreadIs(mid, volatility);
    HalfSpreadPositive(mid, volatility);
    var bids, asks := RawBids(mid, half, draws), RawAsks(mid, half, draws);
    RawFacts(mid, half, draws);
    BestIsFirst(true, bids);
    BestIsFirst(false, asks);
    SortedOrdered(true, bids);
    SortedOrdered(false, asks);
    forall i | 0 <= i < |draws|
      ensures Placed(half, i, mid - RawBid(mid, half, draws, i).price)
      ensures Placed(half, i, RawAsk(mid, half, draws, i).price - mid)
    {
      assert draws[i] in draws;
      OffsetPlaced(mid, half, i, draws[i].bidJitter);
      OffsetPlaced(mid, half, i, draws[i].askJitter);
    }
  }

  lemma HalfSpreadIs(mid: real, volatility: real)
    ensures HalfSpread(mid, volatility) == mid * (if volatility > 0.1 then volatility * 10.0 else 1.0) / 10000.0
  {
  }

  /** A distance from the middle between `i + 1` and `1.3 * i + 1` half spreads, up to half a tick. */
  predicate Placed(half: real, i: nat, distance: real)
  {
    half * (1.0 + i as real) - 0.005 <= distance <= half * (1.0 + 1.3 * i as real) + 0.005
  }

  lemma OffsetPlaced(mid: real, half: real, i: nat, jitter: real)
    requires half > 0.0 && 0.0 <= jitter <= 0.3
    ensures Placed(half, i, mid - RoundPrice(mid - Offset(half, i, jitter)))
    ensures Placed(half, i, RoundPrice(mid + Offset(half, i, jitter)) - mid)
  {
    hide RoundPrice, Offset;
    OffsetBetween(half, i, jitter);
    RoundPriceError(mid - Offset(half, i, jitter));
    RoundPriceError(mid + Offset(half, i, jitter));
  }

  lemma OffsetBetween(half: real, i: nat, jitter: real)
    requires half > 0.0 && 0.0 <= jitter <= 0.3
    ensures half * (1.0 + i as real) <= Offset(half, i, jitter) <= half * (1.0 + 1.3 * i as real)
  {
    var n := i as real;
    assert n * jitter <= 0.3 * n;
    assert 1.0 + n <= 1.0 + n * (1.0 + jitter) <= 1.0 + 1.3 * n;
    Wider(half, 1.0 + n, 1.0 + n * (1.0 + jitter));
    Wider(half, 1.0 + n * (1.0 + jitter), 1.0 + 1.3 * n);
  }

  lemma Wider(half: real, x: real, y: real)
    requires half > 0.0 && x <= y
    ensures half * x <= half * y
  {
  }

  lemma ServedKeeps(cached: Option<Book>, q: Quote)
    requires Proper(q) && (cached.Some? ==> Tidy(cached.value))
    ensures Tidy(Served(cached, q)) && Near(Served(cached, q), q.mid)
  {
    hide RoundPrice, Tidy, FullBook, Scaled;
    if Usable(cached) { ScaledKeeps(cached.value, q.mid, q.noise); }
    else { FullKeeps(q.mid, q.volatility, q.draws); }
  }

  /** After any number of in-place updates the book is as tidy as a new one and its middle is
      within half a cent of the latest price: rounding errors do not add up. */
  lemma {:induction false} EveryBookTidy(qs: seq<Quote>)
    requires qs != [] && forall k :: 0 <= k < |qs| ==> Proper(qs[k])
    ensures Run(None, qs).Some? && Tidy(Run(None, qs).value) && Near(Run(None, qs).value, qs[|qs| - 1].mid)
    decreases |qs|
  {
    hide Tidy, Near, Served, Proper;
    var before := qs[..|qs| - 1];
    if before != [] { EveryBookTidy(before); }
    ProperMid(qs[|qs| - 1]);
    ServedKeeps(Run(None, before), qs[|qs| - 1]);
  }

  /** Above half a cent the cache is always reused: a book generated once is only scaled from then
      on, level by level. */
  lemma CacheReused(qs: seq<Quote>, q: Quote)
    requires qs != [] && Proper(q) && (forall k :: 0 <= k < |qs| ==> Proper(qs[k])) && qs[|qs| - 1].mid > 0.005
    ensures var cached := Run(None, qs);
            && cached.Some? && Tidy(cached.value) && Middle(cached.value) > 0.0
            && Served(cached, q) == Scaled(cached.value, q.mid, q.noise)
            && |Served(cached, q).bids| == |cached.value.bids|
  {
    hide Scaled, FullBook, Ordered, Filled;
    EveryBookTidy(qs);
    ScaledDepth(Run(None, qs).value, q.mid, q.noise);
  }

  /** While there is no price an empty book is served and the cached one waits. */
  lemma NoPriceNoBook(qs: seq<Quote>)
    requires qs != [] && qs[|qs| - 1].mid == 0.0
    ensures Run(None, qs) == Run(None, qs[..|qs| - 1]) && Served(Run(None, qs), qs[|qs| - 1]) == Book([], [])
  {
  }

  lemma ScaledDepth(b: Book, mid: real, noise: nat -> real)
    requires b.bids != [] && b.asks != [] && Middle(b) > 0.0
    ensures |Scaled(b, mid, noise).bids| == |b.bids| && |Scaled(b, mid, noise).asks| == |b.asks|
  {
  }

  lemma ProperMid(q: Quote)
    requires Proper(q)
    ensures q.mid > 0.0
  {
  }

  // --------------------------------------------------------------------- the objects

  class OrderBookLevel {
    var price: real
    var quantity: real

    ghost function View(): Level
      reads this
    {
      Level(price, quantity)
    }

    constructor (price: real, quantity: real)
      ensures View() == Level(price, quantity)
    {
      this.price, this.quantity := price, quantity;
    }
  }

  ghost function Levels(side: seq<OrderBookLevel>): (s: seq<Level>)
    reads side
    ensures |s| == |side| && forall i :: 0 <= i < |side| ==> s[i] == side[i].View()
  {
    seq(|side|, i requires 0 <= i < |side| reads side => side[i].View())
  }

  class OrderBook {
    const bids: seq<OrderBookLevel>
    const asks: seq<OrderBookLevel>

    ghost predicate Valid()
    {
      |bids| == |asks| &&
      (forall i, j :: 0 <= i < j < |bids| ==> bids[i] != bids[j] && asks[i] != asks[j]) &&
      (forall i, j :: 0 <= i < |bids| && 0 <= j < |asks| ==> bids[i] != asks[j])
    }

    ghost function View(): Book
      reads bids, asks
    {
      Book(Levels(bids), Levels(asks))
    }

    constructor (bids: seq<OrderBookLevel>, asks: seq<OrderBookLevel>)
      ensures this.bids == bids && this.asks == asks
    {
      this.bids, this.asks := bids, asks;
    }

    /** Scales every level in place; refused when the book's own middle is not positive. */
    method IncrementalUpdate(mid: real, noise: nat -> real) returns (done: bool)
      requires Valid() && bids != []
      modifies bids, asks
      ensures done <==> Middle(old(View())) > 0.0
      ensures View() == if done then Scaled(old(View()), mid, noise) else old(View())
    {
      hide Moved, Perturbed;
      var oldMid := (bids[0].price + asks[0].price) / 2.0;
      if oldMid <= 0.0 { return false; }
      var ratio := mid / oldMid;
      var i := 0;
      while i < |bids|
        invariant 0 <= i <= |bids|
        invariant forall j {:trigger bids[j]} :: 0 <= j < |bids| ==>
          bids[j].View() == if j < i then ScaledLevel(old(bids[j].View()), ratio, noise(j)) else old(bids[j].View())
        invariant forall j {:trigger asks[j]} :: 0 <= j < |asks| ==>
          asks[j].View() == if j < i then ScaledLevel(old(asks[j].View()), ratio, noise(j)) else old(asks[j].View())
      {
        var bid, ask := bids[i], asks[i];
        bid.price := Moved(bid.price, ratio);
        ask.price := Moved(ask.price, ratio);
        bid.quantity := Perturbed(bid.quantity, noise(i));
        ask.quantity := Perturbed(ask.quantity, noise(i));
        i := i + 1;
      }
      assert View().bids == ScaledSide(old(View()).bids, ratio, noise);
      assert View().asks == ScaledSide(old(View()).asks, ratio, noise);
      return true;
    }
  }

  method SideOf(levels: seq<Level>) returns (side: seq<OrderBookLevel>)
    ensures Levels(side) == levels && fresh(set l | l in side)
    ensures forall i, j :: 0 <= i < j < |side| ==> side[i] != side[j]
  {
    side := [];
    var i := 0;
    while i < |levels|
      invariant 0 <= i == |side| <= |levels| && Levels(side) == levels[..i] && fresh(set l | l in side)
      invariant forall a, b :: 0 <= a < b < |side| ==> side[a] != side[b]
    {
      var level := new OrderBookLevel(levels[i].price, levels[i].quantity);
      side := side + [level];
      i := i + 1;
    }
  }

  /** Builds both sides pair by pair and sorts them. */
  method GenerateFull(mid: real, volatility: real, draws: seq<Draw>) returns (book: OrderBook)
    ensures book.Valid() && book.View() == FullBook(mid, volatility, draws)
    ensures fresh(book) && fresh(set l | l in book.bids) && fresh(set l | l in book.asks)
  {
    hide RoundPrice, Round4, Offset, HalfSpread, Sorted;
    var half := HalfSpread(mid, volatility);
    var bids: seq<Level>, asks: seq<Level> := [], [];
    var i := 0;
    while i < |draws|
      invariant 0 <= i <= |draws|
      invariant bids == RawBids(mid, half, draws)[..i] && asks == RawAsks(mid, half, draws)[..i]
    {
      bids := bids + [RawBid(mid, half, draws, i)];
      asks := asks + [RawAsk(mid, half, draws, i)];
      i := i + 1;
    }
    assert bids == RawBids(mid, half, draws) && asks == RawAsks(mid, half, draws);
    SortedOrdered(true, bids);
    SortedOrdered(false, asks);
    var bidSide := SideOf(Sorted(true, bids));
    var askSide := SideOf(Sorted(false, asks));
    book := new OrderBook(bidSide, askSide);
  }

  /** The cache entry of one exchange and symbol. */
  class BookCache {
    var cached: OrderBook?

    ghost predicate Valid()
      reads this
    {
      cached != null ==> cached.Valid()
    }

    ghost function Objects(): set<object>
      reads this
    {
      if cached == null then {} else set l | l in cached.bids + cached.asks
    }

    ghost function View(): Option<Book>
      reads this, Objects()
    {
      if cached == null then None else Some(cached.View())
    }

    constructor ()
      ensures Valid() && View() == None
    {
      cached := null;
    }

    method GenerateOrderBook(q: Quote) returns (book: OrderBook)
      requires Valid()
      modifies this, Objects()
      ensures Valid() && View() == After(old(View()), q) && book.View() == Served(old(View()), q)
    {
      hide FullBook, Scaled;
      if q.mid == 0.0 {
        book := new OrderBook([], []);
        return;
      }
      if cached != null && cached.bids != [] && cached.asks != [] {
        var done := cached.IncrementalUpdate(q.mid, q.noise);
        if done { return cached; }
      }
      book := GenerateFull(q.mid, q.volatility, q.draws);
      cached := book;
    }
  }
}
