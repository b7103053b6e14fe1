/** Deduplication of resubmitted orders in the message handler: a map from keys to the orders
    they created, and a queue of the keys that bounds it. The exchange behind it is any
    function from a state and a request to a new state and, unless it errs, an order. */
module OrderDeduplication {
  import opened Basics

  const MAX_KEYS: nat := 10000

  /** `clientId` is empty when the client sent none; `known` and `complete` say whether the
      exchange exists and the required fields are present. */
  datatype Request<B> = Request(exchange: string, clientId: string, known: bool, complete: bool, body: B)

  /** What reaches the exchange: trading switches, orders, and in between anything else that
      changes it -- a tick, a cancel, a close. */
  datatype Event<!X, B> = StartTrading | StopTrading | Order(request: Request<B>) | Other(change: X -> X)

  type Submission<!X, !B, O> = (X, Request<B>) -> (X, Option<O>)

  /** What the client is answered. */
  datatype Reply<O> = Silent | Refused | Repeated(order: O) | Invalid | Created(order: O)

  function KeyOf<B>(r: Request<B>): string { r.exchange + ":" + r.clientId }

  /** Different requests have different keys as long as no exchange name holds a colon. */
  lemma {:induction false} KeyInjective<B>(r: Request<B>, s: Request<B>)
    requires KeyOf(r) == KeyOf(s) && ':' !in r.exchange && ':' !in s.exchange
    ensures r.exchange == s.exchange && r.clientId == s.clientId
  {
    var k, n, m := KeyOf(r), |r.exchange|, |s.exchange|;
    assert k[n] == ':' && k[m] == ':';
    assert forall i :: 0 <= i < n ==> k[i] == r.exchange[i];
    assert forall i :: 0 <= i < m ==> k[i] == s.exchange[i];
    assert r.exchange == k[..n] && s.exchange == k[..m];
    assert r.clientId == k[n + 1..] && s.clientId == k[m + 1..];
  }

  // ------------------------------------------------------------------ the handler

  /** The handler; `log` is a history variable: every key recorded, with its order. */
  datatype Handler<X, O> = Handler(book: X, active: bool, orders: map<string, O>, keys: seq<string>,
                                   log: seq<(string, O)>)

  function Recorded<X, O>(h: Handler<X, O>, max: nat, key: string, o: O): Handler<X, O>
  {
    var orders, keys := h.orders[key := o], h.keys + [key];
    var h' := h.(log := h.log + [(key, o)]);
    if |keys| > max then h'.(orders := orders - {keys[0]}, keys := keys[1..]) else h'.(orders := orders, keys := keys)
  }

  function Handled<X, B, O>(submit: Submission<X, B, O>, max: nat, h: Handler<X, O>, e: Event<X, B>)
    : (Handler<X, O>, Reply<O>)
  {
    match e
    case StartTrading => (h.(active := true), Silent)
    case StopTrading => (h.(active := false), Silent)
    case Other(change) => (h.(book := change(h.book)), Silent)
    case Order(r) =>
      if !h.active || !r.known || !r.complete then (h, Refused)
      else if r.clientId != "" && KeyOf(r) in h.orders then (h, Repeated(h.orders[KeyOf(r)]))
      else
        var (book, result) := submit(h.book, r);
        var h' := h.(book := book);
        if result.None? then (h', Invalid)
        else if r.clientId == "" then (h', Created(result.value))
        else (Recorded(h', max, KeyOf(r), result.value), Created(result.value))
  }

  function Run<X, B, O>(submit: Submission<X, B, O>, max: nat, h: Handler<X, O>, es: seq<Event<X, B>>): Handler<X, O>
    decreases |es|
  {
    if es == [] then h else Run(submit, max, Handled(submit, max, h, es[0]).0, es[1..])
  }

  function Opened<X, O>(book: X): Handler<X, O> { Handler(book, true, map[], [], []) }

  // ------------------------------------------------------------ what is remembered

  predicate Distinct(s: seq<string>) { forall i, j :: 0 <= i < j < |s| ==> s[i] != s[j] }

  /** The queue is the end of the log, without repeats; the map has exactly its keys, each with
      the order its recording made. */
  ghost predicate Aligned<O>(orders: map<string, O>, keys: seq<string>, log: seq<(string, O)>)
  {
    |keys| <= |log| && Distinct(keys) && (forall k :: k in orders <==> k in keys) &&
    (forall i :: 0 <= i < |keys| ==> (keys[i], orders[keys[i]]) == log[|log| - |keys| + i])
  }

  /** ... and it is the last `max` of the log, or all of a shorter one. */
  ghost predicate WindowOk<X, O>(h: Handler<X, O>, max: nat)
  {
    Aligned(h.orders, h.keys, h.log) && |h.keys| == if |h.log| < max then |h.log| else max
  }

  lemma PushAligned<O>(orders: map<string, O>, keys: seq<string>, log: seq<(string, O)>, key: string, o: O)
    requires Aligned(orders, keys, log) && key !in orders
    ensures Aligned(orders[key := o], keys + [key], log + [(key, o)])
  {
  }

  lemma DropAligned<O>(orders: map<string, O>, keys: seq<string>, log: seq<(string, O)>)
    requires Aligned(orders, keys, log) && keys != []
    ensures Aligned(orders - {keys[0]}, keys[1..], log)
  {
  }

  lemma RecordedKeeps<X, O>(h: Handler<X, O>, max: nat, key: string, o: O)
    requires WindowOk(h, max) && key !in h.orders
    ensures WindowOk(Recorded(h, max, key, o), max)
  {
    hide Aligned;
    PushAligned(h.orders, h.keys, h.log, key, o);
    if |h.keys| + 1 > max { DropAligned(h.orders[key := o], h.keys + [key], h.log + [(key, o)]); }
  }

  lemma HandledKeeps<X, B, O>(submit: Submission<X, B, O>, max: nat, h: Handler<X, O>, e: Event<X, B>)
    requires WindowOk(h, max)
    ensures WindowOk(Handled(submit, max, h, e).0, max)
  {
    if e.Order? && h.active && e.request.known && e.request.complete &&
       !(e.request.clientId != "" && KeyOf(e.request) in h.orders) {
      var (book, result) := submit(h.book, e.request);
      if result.Some? && e.request.clientId != "" {
        RecordedKeeps(h.(book := book), max, KeyOf(e.request), result.value);
      }
    }
  }

  lemma {:induction false} RunKeeps<X, B, O>(submit: Submission<X, B, O>, max: nat, h: Handler<X, O>,
                                             es: seq<Event<X, B>>)
    requires WindowOk(h, max)
    ensures WindowOk(Run(submit, max, h, es), max)
    decreases |es|
  {
    if es != [] {
      HandledKeeps(submit, max, h, es[0]);
      RunKeeps(submit, max, Handled(submit, max, h, es[0]).0, es[1..]);
    }
  }

  /** In every reachable state a well-formed order is answered from memory exactly when its key
      is one of the last `MAX_KEYS` recorded, and then with the order that key created, leaving
      everything as it was. */
  lemma RepeatedIff<X, B, O>(submit: Submission<X, B, O>, book: X, es: seq<Event<X, B>>, r: Request<B>)
    requires var h := Run(submit, MAX_KEYS, Opened(book), es); h.active && r.known && r.complete && r.clientId != ""
    ensures var h := Run(submit, MAX_KEYS, Opened(book), es);
            var (h', reply) := Handled(submit, MAX_KEYS, h, Order(r));
            var first := if |h.log| > MAX_KEYS then |h.log| - MAX_KEYS else 0;
            (reply.Repeated? <==> exists i :: first <= i < |h.log| && h.log[i].0 == KeyOf(r)) &&
            (reply.Repeated? ==> h' == h && (KeyOf(r), reply.order) in h.log)
  {
    var h := Run(submit, MAX_KEYS, Opened(book), es);
    RunKeeps(submit, MAX_KEYS, Opened<X, O>(book), es);
    var first := |h.log| - |h.keys|;
    var k := KeyOf(r);
    if k in h.orders {
      var i :| 0 <= i < |h.keys| && h.keys[i] == k;
      assert h.log[first + i] == (k, h.orders[k]);
    }
    if i :| first <= i < |h.log| && h.log[i].0 == k {
      assert h.keys[i - first] == k;
    }
  }

  // ------------------------------------------------------------------- idempotence

  /** The handler one would wish for: it never forgets a recorded key. */
  datatype Ledger<X, O> = Ledger(book: X, active: bool, orders: map<string, O>)

  predicate Replays<X, B, O>(l: Ledger<X, O>, e: Event<X, B>)
  {
    e.Order? && e.request.clientId != "" && KeyOf(e.request) in l.orders
  }

  function Entered<X, B, O>(submit: Submission<X, B, O>, l: Ledger<X, O>, e: Event<X, B>): Ledger<X, O>
  {
    match e
    case StartTrading => l.(active := true)
    case StopTrading => l.(active := false)
    case Other(change) => l.(book := change(l.book))
    case Order(r) =>
      if !l.active || !r.known || !r.complete || Replays(l, e) then l
      else
        var (book, result) := submit(l.book, r);
        if result.None? || r.clientId == "" then l.(book := book)
        else l.(book := book, orders := l.orders[KeyOf(r) := result.value])
  }

  function Ledgered<X, B, O>(submit: Submission<X, B, O>, l: Ledger<X, O>, es: seq<Event<X, B>>): Ledger<X, O>
    decreases |es|
  {
    if es == [] then l else Ledgered(submit, Entered(submit, l, es[0]), es[1..])
  }

  /** The log without the repeats of ids recorded earlier in it. */
  function Kept<X, B, O>(submit: Submission<X, B, O>, l: Ledger<X, O>, es: seq<Event<X, B>>): seq<Event<X, B>>
    decreases |es|
  {
    if es == [] then []
    else (if Replays(l, es[0]) then [] else [es[0]]) + Kept(submit, Entered(submit, l, es[0]), es[1..])
  }

  /** Handling with no deduplication at all. */
  function Plain<X, B, O>(submit: Submission<X, B, O>, book: X, active: bool, es: seq<Event<X, B>>): (X, bool)
    decreases |es|
  {
    if es == [] then (book, active)
    else match es[0]
      case StartTrading => Plain(submit, book, true, es[1..])
      case StopTrading => Plain(submit, book, false, es[1..])
      case Other(change) => Plain(submit, change(book), active, es[1..])
      case Order(r) =>
        if !active || !r.known || !r.complete then Plain(submit, book, active, es[1..])
        else Plain(submit, submit(book, r).0, active, es[1..])
  }

  lemma {:induction false} LedgerIsPlainOnKept<X, B, O>(submit: Submission<X, B, O>, l: Ledger<X, O>,
                                                        es: seq<Event<X, B>>)
    ensures var e := Ledgered(submit, l, es); (e.book, e.active) == Plain(submit, l.book, l.active, Kept(submit, l, es))
    decreases |es|
  {
    if es != [] {
      LedgerIsPlainOnKept(submit, Entered(submit, l, es[0]), es[1..]);
      var rest := Kept(submit, Entered(submit, l, es[0]), es[1..]);
      if Replays(l, es[0]) {
        assert Kept(submit, l, es) == rest;
      } else {
        assert Kept(submit, l, es)[1..] == rest;
      }
    }
  }

  ghost predicate Agree<X, O>(h: Handler<X, O>, l: Ledger<X, O>)
  {
    h.book == l.book && h.active == l.active && h.orders == l.orders && |h.keys| == |l.orders|
  }

  lemma {:induction false} LedgerGrows<X, B, O>(submit: Submission<X, B, O>, l: Ledger<X, O>, es: seq<Event<X, B>>)
    ensures |l.orders| <= |Ledgered(submit, l, es).orders|
    decreases |es|
  {
    if es != [] { LedgerGrows(submit, Entered(submit, l, es[0]), es[1..]); }
  }

  lemma {:induction false} HandlerIsLedger<X, B, O>(submit: Submission<X, B, O>, max: nat, h: Handler<X, O>,
                                                    l: Ledger<X, O>, es: seq<Event<X, B>>)
    requires Agree(h, l) && |Ledgered(submit, l, es).orders| <= max
    ensures Agree(Run(submit, max, h, es), Ledgered(submit, l, es))
    decreases |es|
  {
    if es != [] {
      var l' := Entered(submit, l, es[0]);
      LedgerGrows(submit, l', es[1..]);
      HandlerIsLedger(submit, max, Handled(submit, max, h, es[0]).0, l', es[1..]);
    }
  }

  /** Resubmission is idempotent on whole logs: if no more than `MAX_KEYS` different ids are
      recorded, the exchange ends as if every repeat of a recorded id had not been sent. */
  lemma ResubmissionIdempotent<X, B, O>(submit: Submission<X, B, O>, book: X, es: seq<Event<X, B>>)
    requires |Ledgered(submit, Ledger(book, true, map[]), es).orders| <= MAX_KEYS
    ensures var h := Run(submit, MAX_KEYS, Opened(book), es);
            (h.book, h.active) == Plain(submit, book, true, Kept(submit, Ledger(book, true, map[]), es))
  {
    var l: Ledger<X, O> := Ledger(book, true, map[]);
    HandlerIsLedger(submit, MAX_KEYS, Opened(book), l, es);
    LedgerIsPlainOnKept(submit, l, es);
  }

  /** The bound matters: once a key has been pushed out, its resubmission creates a second order. */
  lemma EvictedIsResubmitted<X, B, O>(submit: Submission<X, B, O>, max: nat, h: Handler<X, O>, first: Request<B>,
                                      later: Request<B>)
    requires WindowOk(h, max) && |h.keys| == max > 0 && h.active && h.keys[0] == KeyOf(first)
    requires KeyOf(later) !in h.orders
    requires first.known && first.complete && first.clientId != "" && later.known && later.complete
    requires later.clientId != ""
    requires submit(h.book, later).1.Some?
    ensures var h1 := Handled(submit, max, h, Order(later)).0;
            Handled(submit, max, h, Order(first)).1.Repeated? &&
            Handled(submit, max, h1, Order(first)).0.book == submit(h1.book, first).0 &&
            !Handled(submit, max, h1, Order(first)).1.Repeated?
  {
  }

  // -------------------------------------------------------------------- the object

  class MessageHandler<X, B, O> {
    const submit: Submission<X, B, O>
    var book: X
    var active: bool
    var orders: map<string, O>
    var keys: seq<string>
    ghost var log: seq<(string, O)>

    ghost function View(): Handler<X, O>
      reads this
    {
      Handler(book, active, orders, keys, log)
    }

    constructor (submit: Submission<X, B, O>, book: X)
      ensures View() == Opened(book) && this.submit == submit
    {
      this.submit, this.book, active, orders, keys, log := submit, book, true, map[], [], [];
    }

    method HandleOrder(r: Request<B>) returns (reply: Reply<O>)
      modifies this
      ensures (View(), reply) == Handled(submit, MAX_KEYS, old(View()), Order(r))
    {
      if !active || !r.known || !r.complete { return Refused; }
      var key := KeyOf(r);
      if r.clientId != "" {
        if key in orders { return Repeated(orders[key]); }
      }
      var (after, result) := submit(book, r);
      book := after;
      if result.None? { return Invalid; }
      var order := result.value;
      if r.clientId != "" {
        orders := orders[key := order];
        keys := keys + [key];
        log := log + [(key, order)];
        if |keys| > MAX_KEYS {
          orders, keys := orders - {keys[0]}, keys[1..];
        }
      }
      return Created(order);
    }
  }
}
