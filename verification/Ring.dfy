/** The shared-memory ring between one producer and one consumer process: its power-of-two
    masking, its small-step behaviour under every interleaving of single reads and writes, and
    the sequential buffer object. */
module RingBuffer {
  import opened Basics

  type Word = int
  type Item = seq<Word>

  // ------------------------------------------------------------------- masking

  /** Bitwise `and` of a two's-complement integer with a non-negative one. */
  function And(a: int, b: nat): nat
    decreases b
  {
    if b == 0 then 0 else 2 * And(a / 2, b / 2) + (if a % 2 == 1 && b % 2 == 1 then 1 else 0)
  }

  /** What the constructor accepts. */
  predicate Accepted(capacity: int) { capacity > 0 && And(capacity, capacity - 1) == 0 }

  function Pow2(k: nat): nat { if k == 0 then 1 else 2 * Pow2(k - 1) }

  lemma {:induction false} AcceptedHalves(capacity: int)
    requires capacity > 1
    ensures Accepted(capacity) <==> capacity % 2 == 0 && Accepted(capacity / 2)
  {
    var half := capacity / 2;
    if capacity % 2 == 0 {
      assert (capacity - 1) / 2 == half - 1 && (capacity - 1) % 2 == 1;
    } else {
      assert (capacity - 1) / 2 == half;
      AndSelf(half);
    }
  }

  lemma {:induction false} AndSelf(n: nat)
    ensures And(n, n) == n
  {
    if n > 0 { AndSelf(n / 2); }
  }

  /** The constructor's bit test accepts exactly the powers of two. */
  lemma {:induction false} AcceptedIffPowerOfTwo(capacity: int)
    ensures Accepted(capacity) <==> exists k :: capacity == Pow2(k)
    decreases if capacity > 0 then capacity else 0
  {
    if capacity == 1 {
      assert capacity == Pow2(0);
    } else if capacity > 1 {
      AcceptedHalves(capacity);
      AcceptedIffPowerOfTwo(capacity / 2);
      if Accepted(capacity) {
        var k: nat :| capacity / 2 == Pow2(k);
        assert capacity == Pow2(k + 1);
      }
      if k: nat :| capacity == Pow2(k) {
        assert k > 0 && capacity / 2 == Pow2(k - 1);
      }
    } else if k: nat :| capacity == Pow2(k) {
      PowPositive(k);
    }
  }

  lemma {:induction false} PowPositive(k: nat)
    ensures Pow2(k) > 0
  {
    if k > 0 { PowPositive(k - 1); }
  }

  /** Masking with `capacity - 1` is reduction modulo the capacity, for every counter value. */
  lemma {:induction false} MaskIsModulo(n: int, capacity: int)
    requires Accepted(capacity)
    ensures And(n, capacity - 1) == Cell(n, capacity)
    decreases capacity
  {
    if capacity > 1 {
      AcceptedHalves(capacity);
      var half := capacity / 2;
      MaskIsModulo(n / 2, half);
      assert (capacity - 1) / 2 == half - 1 && (capacity - 1) % 2 == 1;
      DoubledModulo(n, half);
    }
  }

  lemma DoubledModulo(n: int, half: int)
    requires half > 0
    ensures n % (2 * half) == 2 * ((n / 2) % half) + n % 2
  {
    var q, r := (n / 2) / half, (n / 2) % half;
    assert n / 2 == q * half + r;
    assert n == q * (2 * half) + (2 * r + n % 2);
    ModuloUnique(n, 2 * half, q, 2 * r + n % 2);
  }

  lemma MultipleIsLarge(k: int, d: int)
    requires d > 0
    ensures (k >= 1 ==> k * d >= d) && (k <= -1 ==> k * d <= -d)
  {
  }

  lemma ModuloUnique(n: int, d: int, q: int, r: int)
    requires d > 0 && 0 <= r < d && n == q * d + r
    ensures n % d == r && n / d == q
  {
    var p, m := n / d, n % d;
    assert n == p * d + m && 0 <= m < d;
    assert (p - q) * d == r - m;
    MultipleIsLarge(p - q, d);
  }

  /** The slot of a counter value. */
  function Cell(n: int, capacity: int): (c: nat)
    requires capacity > 0
    ensures c < capacity
  {
    n % capacity
  }

  /** Counters less than a capacity apart use different slots. */
  lemma SlotsDiffer(a: int, b: int, capacity: int)
    requires capacity > 0 && a < b < a + capacity
    ensures Cell(a, capacity) != Cell(b, capacity)
  {
    var q, r := a / capacity, a % capacity;
    assert a == q * capacity + r;
    if r + (b - a) < capacity {
      ModuloUnique(b, capacity, q, r + (b - a));
    } else {
      assert b == (q + 1) * capacity + (r + (b - a) - capacity);
      ModuloUnique(b, capacity, q + 1, r + (b - a) - capacity);
    }
  }

  // ------------------------------------------------- the two processes, step by step

  /** What the producer has done of its current call. An item is written word by word. */
  datatype Producer =
    | AtRest
    | HeadRead(batch: seq<Item>, single: bool, head: int)
    | Writing(batch: seq<Item>, head: int, count: int, i: nat, w: nat)

  /** What the consumer has done of its current call; `got` holds the items read so far and
      `part` the words read of the next. */
  datatype Consumer =
    | Idle
    | TailRead(max: int, single: bool, tail: int)
    | Reading(tail: int, count: int, got: seq<Item>, part: Item)

  /** The shared segment, both processes, and two history variables: the items accepted (by a
      published push) and the items delivered (by a published pop). */
  datatype Ring = Ring(capacity: int, width: nat, slots: seq<Item>, head: int, tail: int,
                       producer: Producer, consumer: Consumer, dropped: nat,
                       accepted: seq<Item>, popped: seq<Item>)

  /** One scheduling choice: begin a call, or let a process make its next single access. */
  datatype Action =
    | BeginPush(batch: seq<Item>, single: bool)
    | BeginPop(max: int, single: bool)
    | ProducerStep
    | ConsumerStep

  predicate Sized(items: seq<Item>, width: nat) { forall k :: 0 <= k < |items| ==> |items[k]| == width }

  predicate Shaped(r: Ring)
  {
    Accepted(r.capacity) && |r.slots| == r.capacity && Sized(r.slots, r.width) &&
    (match r.producer
     case AtRest => true
     case HeadRead(batch, single, _) => Sized(batch, r.width) && (single ==> |batch| == 1)
     case Writing(batch, _, count, _, _) => Sized(batch, r.width) && count <= |batch|)
  }

  /** Calls as the struct format and the two method signatures admit them. */
  predicate Typed(a: Action, width: nat)
  {
    (a.BeginPush? ==> Sized(a.batch, width) && (a.single ==> |a.batch| == 1)) &&
    (a.BeginPop? && a.single ==> a.max == 1)
  }

  function Slot(r: Ring, n: int): (s: nat)
    requires Shaped(r)
    ensures s == Cell(n, r.capacity) && s < |r.slots|
  {
    MaskIsModulo(n, r.capacity);
    And(n, r.capacity - 1)
  }

  function ProducerNext(r: Ring): (r': Ring)
    requires Shaped(r)
    ensures Shaped(r')
  {
    match r.producer
    case AtRest => r
    case HeadRead(batch, single, head) =>
      if single && head - r.tail >= r.capacity then r.(producer := AtRest, dropped := r.dropped + 1)
      else r.(producer := Writing(batch, head, MinInt(|batch|, r.capacity - (head - r.tail)), 0, 0))
    case Writing(batch, head, count, i, w) =>
      if i >= count then
        r.(producer := AtRest, head := head + count,
           accepted := r.accepted + (if count > 0 then batch[..count] else []))
      else if w >= r.width then r.(producer := Writing(batch, head, count, i + 1, 0))
      else
        var s := Slot(r, head + i);
        r.(producer := Writing(batch, head, count, i, w + 1),
           slots := r.slots[s := r.slots[s][w := batch[i][w]]])
  }

  function ConsumerNext(r: Ring): (r': Ring)
    requires Shaped(r)
    ensures Shaped(r')
  {
    match r.consumer
    case Idle => r
    case TailRead(max, single, tail) =>
      if single && r.head == tail then r.(consumer := Idle)
      else r.(consumer := Reading(tail, MinInt(max, r.head - tail), [], []))
    case Reading(tail, count, got, part) =>
      if |got| >= count then
        if tail + count < 0 then r.(consumer := Idle)  // a negative counter does not pack
        else r.(consumer := Idle, tail := tail + count, popped := r.popped + got)
      else if |part| >= r.width then r.(consumer := Reading(tail, count, got + [part], []))
      else
        var s := Slot(r, tail + |got|);
        r.(consumer := Reading(tail, count, got, part + [r.slots[s][|part|]]))
  }

  function Step(r: Ring, a: Action): (r': Ring)
    requires Shaped(r) && Typed(a, r.width)
    ensures Shaped(r') && r'.width == r.width && r'.capacity == r.capacity
  {
    match a
    case BeginPush(batch, single) =>
      if r.producer.AtRest? then r.(producer := HeadRead(batch, single, r.head)) else r
    case BeginPop(max, single) =>
      if r.consumer.Idle? then r.(consumer := TailRead(max, single, r.tail)) else r
    case ProducerStep => ProducerNext(r)
    case ConsumerStep => ConsumerNext(r)
  }

  function Run(r: Ring, acts: seq<Action>): Ring
    requires Shaped(r) && AllTyped(r, acts)
    decreases |acts|
  {
    if acts == [] then r else Run(Step(r, acts[0]), acts[1..])
  }

  /** A segment just created: both counters zero, the slots holding anything. */
  predicate Created(r: Ring)
  {
    Shaped(r) && r.head == 0 && r.tail == 0 && r.producer.AtRest? && r.consumer.Idle? &&
    r.accepted == [] && r.popped == []
  }

  // ------------------------------------------------------------ safety of every run

  /** The slots from `tail` to `head` hold exactly the accepted, undelivered items. */
  ghost predicate Holds(r: Ring)
    requires Shaped(r) && 0 <= r.tail <= r.head == |r.accepted|
  {
    forall k {:trigger r.accepted[k]} :: r.tail <= k < r.head ==> r.slots[Cell(k, r.capacity)] == r.accepted[k]
  }

  ghost predicate ProducerOk(r: Ring)
    requires Shaped(r)
  {
    match r.producer
    case AtRest => true
    case HeadRead(_, _, head) => head == r.head
    case Writing(batch, head, count, i, w) =>
      head == r.head && 0 <= i <= count && head + count <= r.tail + r.capacity && w <= r.width &&
      (forall j {:trigger batch[j]} :: 0 <= j < i ==> r.slots[Cell(head + j, r.capacity)] == batch[j]) &&
      (i < count ==> r.slots[Cell(head + i, r.capacity)][..w] == batch[i][..w]) && (i == count ==> w == 0)
  }

  ghost predicate ConsumerOk(r: Ring)
    requires Shaped(r) && 0 <= r.tail <= r.head == |r.accepted|
  {
    match r.consumer
    case Idle => true
    case TailRead(max, single, tail) => tail == r.tail && (single ==> max == 1)
    case Reading(tail, count, got, part) =>
      if count < 0 then tail == r.tail && got == []
      else
        tail == r.tail && |got| <= count && tail + count <= r.head && |part| <= r.width &&
        got == r.accepted[tail..tail + |got|] &&
        (|got| < count ==> part <= r.accepted[tail + |got|]) && (|got| == count ==> part == [])
  }

  /** The invariant: the counters stay within a capacity of each other, and what was delivered
      is the first `tail` of what was accepted. */
  ghost predicate Inv(r: Ring)
  {
    Shaped(r) && 0 <= r.tail <= r.head <= r.tail + r.capacity && |r.accepted| == r.head &&
    Sized(r.accepted, r.width) && r.popped == r.accepted[..r.tail] &&
    Holds(r) && ProducerOk(r) && ConsumerOk(r)
  }

  /** While the producer writes, the slot it touches is none of those still readable. */
  lemma WriterAvoidsReadable(r: Ring, k: int)
    requires Inv(r) && r.producer.Writing? && r.producer.i < r.producer.count && r.tail <= k < r.head
    ensures Slot(r, r.producer.head + r.producer.i) != Slot(r, k)
  {
    hide Cell, And, Accepted;
    SlotsDiffer(k, r.producer.head + r.producer.i, r.capacity);
  }

  /** The consumer does not notice what the producer does. */
  lemma ConsumerUnmoved(r: Ring, r': Ring)
    requires Inv(r) && Shaped(r') && r'.consumer == r.consumer && r.accepted <= r'.accepted
    requires r'.head == |r'.accepted| && r'.tail == r.tail && r'.width == r.width
    ensures ConsumerOk(r')
  {
  }

  /** Nor the producer what the consumer does, except that there may be more room. */
  lemma ProducerUnmoved(r: Ring, r': Ring)
    requires Inv(r) && Shaped(r') && r'.producer == r.producer && r'.slots == r.slots && r'.head == r.head
    requires r'.tail >= r.tail && r'.width == r.width && r'.capacity == r.capacity
    ensures ProducerOk(r')
  {
  }

  lemma PublishKeeps(r: Ring)
    requires Inv(r) && r.producer.Writing? && r.producer.i == r.producer.count
    ensures Inv(ProducerNext(r))
  {
    hide Cell, And, Accepted, ConsumerOk;
    var r', p := ProducerNext(r), r.producer;
    assert forall k :: 0 <= k < r.head ==> r'.accepted[k] == r.accepted[k];
    assert forall k :: r.head <= k < r'.head ==> r'.accepted[k] == p.batch[k - r.head];
    assert r'.popped == r'.accepted[..r'.tail];
    ConsumerUnmoved(r, r');
  }

  lemma WriteKeeps(r: Ring)
    requires Inv(r) && r.producer.Writing? && r.producer.i < r.producer.count && r.producer.w < r.width
    ensures Inv(ProducerNext(r))
  {
    hide Cell, And, Accepted, ConsumerOk;
    var r', p := ProducerNext(r), r.producer;
    var s := Slot(r, p.head + p.i);
    var cell := r.slots[s][p.w := p.batch[p.i][p.w]];
    assert r'.slots == r.slots[s := cell] && |cell| == r.width;
    forall k | r.tail <= k < r.head ensures r'.slots[Cell(k, r.capacity)] == r.accepted[k] {
      WriterAvoidsReadable(r, k);
    }
    forall j | 0 <= j < p.i ensures r'.slots[Cell(p.head + j, r.capacity)] == p.batch[j] {
      SlotsDiffer(p.head + j, p.head + p.i, r.capacity);
    }
    assert cell[..p.w + 1] == r.slots[s][..p.w] + [p.batch[p.i][p.w]] == p.batch[p.i][..p.w + 1];
    ConsumerUnmoved(r, r');
  }

  lemma ProducerKeeps(r: Ring)
    requires Inv(r)
    ensures Inv(ProducerNext(r))
  {
    hide Cell, And, Accepted, ConsumerOk;
    var r', p := ProducerNext(r), r.producer;
    if p.Writing? && p.i == p.count {
      PublishKeeps(r);
    } else if p.Writing? && p.w < r.width {
      WriteKeeps(r);
    } else {
      if p.Writing? { assert r.slots[Cell(p.head + p.i, r.capacity)] == p.batch[p.i]; }
      ConsumerUnmoved(r, r');
    }
  }

  /** The access that publishes a bulk pop of a negative count: it winds the tail back. */
  predicate Rewinds(r: Ring, a: Action)
  {
    a.ConsumerStep? && r.consumer.Reading? && r.consumer.count < 0 && r.consumer.tail + r.consumer.count >= 0
  }

  lemma ConsumerKeeps(r: Ring)
    requires Inv(r) && !Rewinds(r, ConsumerStep)
    ensures Inv(ConsumerNext(r))
  {
    hide Cell, And, Accepted, ProducerOk;
    var r' := ConsumerNext(r);
    ProducerUnmoved(r, r');
    if r.consumer.Reading? && r.consumer.count >= 0 {
      var c := r.consumer;
      if |c.got| >= c.count {
        assert r'.popped == r'.accepted[..r'.tail];
      } else {
        var next := r.accepted[c.tail + |c.got|];
        assert r.slots[Cell(c.tail + |c.got|, r.capacity)] == next;
        if |c.part| < r.width {
          assert r'.consumer.part == c.part + [next[|c.part|]];
        } else {
          assert c.part == next;
          assert r'.consumer.got == r.accepted[c.tail..c.tail + |c.got| + 1];
        }
      }
    }
  }

  /** What the two processes see of it: never over- or underfull, and the items delivered are a
      prefix of those accepted -- none lost, repeated, reordered or torn. */
  predicate InOrder(r: Ring)
  {
    0 <= r.tail <= r.head <= r.tail + r.capacity && |r.accepted| == r.head && r.popped == r.accepted[..r.tail]
  }

  lemma RewindBreaks(r: Ring)
    requires Inv(r) && Rewinds(r, ConsumerStep)
    ensures !InOrder(ConsumerNext(r))
  {
    hide Cell, And, Accepted, Holds, ProducerOk, Sized;
    var r' := ConsumerNext(r);
    assert |r'.popped| == r.tail && r'.tail < r.tail;
  }

  /** A single access of either process keeps the invariant if and only if it does not publish a
      negative pop. */
  lemma StepKeepsIff(r: Ring, a: Action)
    requires Inv(r) && Typed(a, r.width)
    ensures Inv(Step(r, a)) <==> !Rewinds(r, a)
  {
    hide Cell, And, Accepted;
    if a.ProducerStep? { ProducerKeeps(r); }
    if a.ConsumerStep? {
      if Rewinds(r, a) { RewindBreaks(r); } else { ConsumerKeeps(r); }
    }
  }

  predicate AllTyped(r: Ring, acts: seq<Action>) { forall k :: 0 <= k < |acts| ==> Typed(acts[k], r.width) }

  predicate AlwaysInOrder(r: Ring, acts: seq<Action>)
    requires Shaped(r) && AllTyped(r, acts)
    decreases |acts|
  {
    InOrder(r) && (acts == [] || AlwaysInOrder(Step(r, acts[0]), acts[1..]))
  }

  predicate NeverRewinds(r: Ring, acts: seq<Action>)
    requires Shaped(r) && AllTyped(r, acts)
    decreases |acts|
  {
    acts == [] || (!Rewinds(r, acts[0]) && NeverRewinds(Step(r, acts[0]), acts[1..]))
  }

  lemma {:induction false} RunIff(r: Ring, acts: seq<Action>)
    requires Inv(r) && AllTyped(r, acts)
    ensures AlwaysInOrder(r, acts) <==> NeverRewinds(r, acts)
    ensures NeverRewinds(r, acts) ==> Inv(Run(r, acts))
    decreases |acts|
  {
    hide Cell, And, Accepted, Holds, ProducerOk, ConsumerOk, Sized;
    if acts != [] {
      StepKeepsIff(r, acts[0]);
      if Rewinds(r, acts[0]) { RewindBreaks(r); } else { RunIff(Step(r, acts[0]), acts[1..]); }
    }
  }

  /** Under every interleaving from creation the ring stays in order if and only if no negative
      pop is published. */
  lemma DeliversInOrderIff(r: Ring, acts: seq<Action>)
    requires Created(r) && AllTyped(r, acts)
    ensures AlwaysInOrder(r, acts) <==> NeverRewinds(r, acts)
    ensures NeverRewinds(r, acts) ==> InOrder(Run(r, acts))
  {
    RunIff(r, acts);
  }

  /** No pop under way was asked for a negative count. */
  predicate AsksForItems(r: Ring)
  {
    (r.consumer.TailRead? ==> r.consumer.max >= 0) && (r.consumer.Reading? ==> r.consumer.count >= 0)
  }

  /** None is published when none is asked for. */
  lemma {:induction false} NonNegativePopsNeverRewind(r: Ring, acts: seq<Action>)
    requires Inv(r) && AllTyped(r, acts) && AsksForItems(r)
    requires forall k :: 0 <= k < |acts| && acts[k].BeginPop? ==> acts[k].max >= 0
    ensures NeverRewinds(r, acts)
    decreases |acts|
  {
    hide Cell, And, Accepted, Holds, ProducerOk;
    if acts != [] {
      StepKeepsIff(r, acts[0]);
      NonNegativePopsNeverRewind(Step(r, acts[0]), acts[1..]);
    }
  }

  /** The items a consumer has still to be given. */
  function Queue(r: Ring): seq<Item>
    requires 0 <= r.tail <= |r.accepted|
  {
    r.accepted[r.tail..]
  }

  /** The machine refines an atomic bounded queue: each access leaves the queue alone, or is the
      push of the first `count` items of the batch, or takes what the call returns off its front,
      or, publishing a negative pop, puts items already delivered back in front. */
  lemma StepIsAtomic(r: Ring, a: Action)
    requires Inv(r) && Typed(a, r.width)
    ensures 0 <= Step(r, a).tail <= |Step(r, a).accepted|
    ensures !Rewinds(r, a) ==> |Queue(Step(r, a))| <= r.capacity
    ensures
      var q, q' := Queue(r), Queue(Step(r, a));
      if a.ProducerStep? && r.producer.Writing? && r.producer.i == r.producer.count
      then q' == q + r.producer.batch[..r.producer.count]
      else if Rewinds(r, a) then q' == r.popped[|r.popped| + r.consumer.count..] + q
      else if a.ConsumerStep? && r.consumer.Reading? && |r.consumer.got| == r.consumer.count
      then q == r.consumer.got + q' else q' == q
  {
    hide Cell, And, Accepted, Holds, Sized;
    StepKeepsIff(r, a);
    if a.ProducerStep? { QueueAfterProducer(r); }
    if a.ConsumerStep? {
      if Rewinds(r, a) { QueueRewound(r); } else { QueueAfterConsumer(r); }
    }
  }

  lemma QueueRewound(r: Ring)
    requires Inv(r) && Rewinds(r, ConsumerStep)
    ensures var r' := ConsumerNext(r);
      && r'.accepted == r.accepted && r'.tail == r.tail + r.consumer.count >= 0
      && r.accepted[r'.tail..] == r.popped[|r.popped| + r.consumer.count..] + Queue(r)
  {
    hide Cell, And, Accepted, Holds, Sized, ProducerOk;
    assert r.accepted == r.accepted[..r.tail] + r.accepted[r.tail..];
  }

  lemma QueueAfterProducer(r: Ring)
    requires Inv(r)
    ensures ProducerNext(r).tail == r.tail
    ensures
      var r' := ProducerNext(r);
      if r.producer.Writing? && r.producer.i == r.producer.count
      then r'.accepted == r.accepted + r.producer.batch[..r.producer.count] else r'.accepted == r.accepted
  {
  }

  lemma QueueAfterConsumer(r: Ring)
    requires Inv(r) && !Rewinds(r, ConsumerStep)
    ensures ConsumerNext(r).accepted == r.accepted && 0 <= ConsumerNext(r).tail <= |r.accepted|
    ensures
      var r' := ConsumerNext(r);
      if r.consumer.Reading? && |r.consumer.got| == r.consumer.count
      then Queue(r) == r.consumer.got + Queue(r') else r'.tail == r.tail
  {
    hide Cell, And, Accepted, Holds, Sized, ProducerOk;
    if r.consumer.Reading? && r.consumer.count >= 0 {
      var c := r.consumer;
      assert r.accepted[c.tail..] == r.accepted[c.tail..c.tail + |c.got|] + r.accepted[c.tail + |c.got|..];
    }
  }

  /** A single push is refused only by a full ring, and by a full ring always; an accepted call
      takes as many items as there was room for. */
  lemma PushTakesWhatFits(r: Ring)
    requires Inv(r) && r.producer.HeadRead?
    ensures var room, p, r' := r.capacity - |Queue(r)|, r.producer, ProducerNext(r);
      if r'.producer.AtRest? then p.single && room == 0 && r'.dropped == r.dropped + 1
      else r'.producer.count == MinInt(|p.batch|, room) && r'.dropped == r.dropped && (p.single ==> room > 0)
  {
  }

  /** A single pop comes back empty-handed only from an empty ring, and from one always; any other
      pop sets out to take as many as it asked for, or all there are. */
  lemma PopTakesWhatIs(r: Ring)
    requires Inv(r) && r.consumer.TailRead?
    ensures var there, c, r' := |Queue(r)|, r.consumer, ConsumerNext(r);
      if r'.consumer.Idle? then c.single && there == 0
      else r'.consumer.count == MinInt(c.max, there) && r'.consumer.got == [] && (c.single ==> there > 0)
  {
  }

  // ------------------------------------------------------- calls run to their end

  function Steps(a: Action, n: nat): seq<Action> { if n == 0 then [] else [a] + Steps(a, n - 1) }

  lemma {:induction false} StepsTyped(r: Ring, a: Action, n: nat)
    requires Typed(a, r.width)
    ensures AllTyped(r, Steps(a, n)) && (n > 0 ==> Steps(a, n)[0] == a && Steps(a, n)[1..] == Steps(a, n - 1))
  {
    if n > 0 { StepsTyped(r, a, n - 1); }
  }

  /** Accesses up to and including the publishing one, with `items` still to be moved and `done`
      words of the first. */
  function Left(items: int, width: nat, done: int): int { items * (width + 1) - done + 1 }

  lemma NoneLeft(width: nat)
    ensures Left(0, width, 0) == 1
  {
  }

  lemma OneLess(items: int, width: nat)
    requires items > 0
    ensures Left(items - 1, width, 0) == Left(items, width, width) - 1 && Left(items, width, width) > 1
  {
  }

  lemma SomeLeft(items: int, width: nat, done: int)
    requires items > 0 && done <= width
    ensures Left(items, width, done) > 1 && Left(items, width, done + 1) == Left(items, width, done) - 1
  {
  }

  /** Left alone, a pop under way delivers its items, in order, off the front of the queue. */
  lemma {:induction false} PopCompletes(r: Ring, n: nat)
    requires Inv(r) && r.consumer.Reading? && r.consumer.count >= 0
    requires n == Left(r.consumer.count - |r.consumer.got|, r.width, |r.consumer.part|)
    ensures AllTyped(r, Steps(ConsumerStep, n)) && r.consumer.count <= |Queue(r)|
    ensures var e, k := Run(r, Steps(ConsumerStep, n)), r.consumer.count;
            && e.consumer.Idle? && e.popped == r.popped + Queue(r)[..k]
            && e.accepted == r.accepted && e.tail == r.tail + k && Inv(e)
    decreases n
  {
    hide Cell, And, Accepted, Holds, ProducerOk, Sized, Left;
    var c, r' := r.consumer, ConsumerNext(r);
    StepsTyped(r, ConsumerStep, n);
    ConsumerKeeps(r);
    if |c.got| >= c.count {
      NoneLeft(r.width);
      StepsTyped(r', ConsumerStep, 0);
      assert Run(r', []) == r';
    } else {
      if |c.part| >= r.width { OneLess(c.count - |c.got|, r.width); }
      else { SomeLeft(c.count - |c.got|, r.width, |c.part|); }
      PopCompletes(r', n - 1);
    }
  }

  /** Left alone, a push under way publishes its items behind the queue. */
  lemma {:induction false} PushCompletes(r: Ring, n: nat)
    requires Inv(r) && r.producer.Writing?
    requires n == Left(r.producer.count - r.producer.i, r.width, r.producer.w)
    ensures AllTyped(r, Steps(ProducerStep, n))
    ensures var e, k := Run(r, Steps(ProducerStep, n)), r.producer.count;
            && e.producer.AtRest? && e.accepted == r.accepted + r.producer.batch[..k]
            && e.popped == r.popped && e.tail == r.tail && Inv(e)
    decreases n
  {
    hide Cell, And, Accepted, Holds, ConsumerOk, Sized, Left;
    var p, r' := r.producer, ProducerNext(r);
    StepsTyped(r, ProducerStep, n);
    ProducerKeeps(r);
    if p.i >= p.count {
      NoneLeft(r.width);
      StepsTyped(r', ProducerStep, 0);
      assert Run(r', []) == r';
    } else {
      if p.w >= r.width { OneLess(p.count - p.i, r.width); }
      else { SomeLeft(p.count - p.i, r.width, p.w); }
      PushCompletes(r', n - 1);
    }
  }

  lemma RunTwo(r: Ring, a: Action, b: Action, acts: seq<Action>)
    requires Shaped(r) && Typed(a, r.width) && Typed(b, r.width) && AllTyped(r, acts)
    ensures AllTyped(r, [a, b] + acts) && AllTyped(Step(Step(r, a), b), acts)
    ensures Run(r, [a, b] + acts) == Run(Step(Step(r, a), b), acts)
  {
    var all := [a, b] + acts;
    assert all[0] == a && all[1..][0] == b && all[1..] == [b] + acts && all[1..][1..] == acts;
    assert forall k :: 2 <= k < |all| ==> all[k] == acts[k - 2];
    assert AllTyped(r, all);
  }

  /** A whole push, undisturbed: a single one is dropped if the ring is full, and otherwise the
      queue grows by as many of the items as there is room for. */
  lemma PushCall(r: Ring, batch: seq<Item>, single: bool, n: nat)
    requires Inv(r) && r.producer.AtRest? && Typed(BeginPush(batch, single), r.width)
    requires var k := MinInt(|batch|, r.capacity - |Queue(r)|); n == Left(k, r.width, 0)
    ensures AllTyped(r, [BeginPush(batch, single), ProducerStep] + Steps(ProducerStep, n))
    ensures var e := Run(r, [BeginPush(batch, single), ProducerStep] + Steps(ProducerStep, n));
            var k := MinInt(|batch|, r.capacity - |Queue(r)|);
            && Inv(e) && e.producer.AtRest? && e.popped == r.popped && Queue(e) == Queue(r) + batch[..k]
            && e.dropped == r.dropped + (if single && k == 0 then 1 else 0)
  {
    hide Cell, And, Accepted, Holds, ConsumerOk, Left;
    var a, b, acts := BeginPush(batch, single), ProducerStep, Steps(ProducerStep, n);
    var r1 := Step(r, a);
    var r2 := Step(r1, b);
    StepsTyped(r, b, n);
    StepKeepsIff(r, a);
    StepKeepsIff(r1, b);
    RunTwo(r, a, b, acts);
    PushTakesWhatFits(r1);
    if r2.producer.AtRest? { RestsAt(r2, n); }
    else {
      PushCompletes(r2, n);
      DropsKept(r2, n);
    }
  }

  lemma {:induction false} RestsAt(r: Ring, n: nat)
    requires Shaped(r) && r.producer.AtRest?
    ensures AllTyped(r, Steps(ProducerStep, n)) && Run(r, Steps(ProducerStep, n)) == r
  {
    StepsTyped(r, ProducerStep, n);
    if n > 0 { RestsAt(r, n - 1); }
  }

  /** Once a push is past its check nothing more is dropped. */
  lemma {:induction false} DropsKept(r: Ring, n: nat)
    requires Shaped(r) && !r.producer.HeadRead?
    ensures AllTyped(r, Steps(ProducerStep, n)) && Run(r, Steps(ProducerStep, n)).dropped == r.dropped
    decreases n
  {
    hide Accepted, And;
    StepsTyped(r, ProducerStep, n);
    if n > 0 { DropsKept(ProducerNext(r), n - 1); }
  }

  /** A whole pop, undisturbed: as many items as asked for, or all there are, come off the front. */
  lemma PopCall(r: Ring, max: nat, single: bool, n: nat)
    requires Inv(r) && r.consumer.Idle? && Typed(BeginPop(max, single), r.width)
    requires max >= 0 && n == Left(MinInt(max, |Queue(r)|), r.width, 0)
    ensures AllTyped(r, [BeginPop(max, single), ConsumerStep] + Steps(ConsumerStep, n))
    ensures var e := Run(r, [BeginPop(max, single), ConsumerStep] + Steps(ConsumerStep, n));
            var k := MinInt(max, |Queue(r)|);
            && Inv(e) && e.consumer.Idle? && e.accepted == r.accepted
            && e.popped == r.popped + Queue(r)[..k] && Queue(e) == Queue(r)[k..]
  {
    hide Cell, And, Accepted, Holds, ProducerOk, Left;
    var a, b, acts := BeginPop(max, single), ConsumerStep, Steps(ConsumerStep, n);
    var r1 := Step(r, a);
    var r2 := Step(r1, b);
    StepsTyped(r, b, n);
    StepKeepsIff(r, a);
    StepKeepsIff(r1, b);
    RunTwo(r, a, b, acts);
    PopTakesWhatIs(r1);
    if r2.consumer.Idle? { IdlesOn(r2, n); }
    else { PopCompletes(r2, n); }
  }

  lemma {:induction false} IdlesOn(r: Ring, n: nat)
    requires Shaped(r) && r.consumer.Idle?
    ensures AllTyped(r, Steps(ConsumerStep, n)) && Run(r, Steps(ConsumerStep, n)) == r
  {
    StepsTyped(r, ConsumerStep, n);
    if n > 0 { IdlesOn(r, n - 1); }
  }

  /** A bulk pop is sound exactly for a non-negative count: asked for fewer it winds the tail
      back over items already delivered, which are then handed out again. */
  lemma PopSoundIff(r: Ring, max: int)
    requires Inv(r) && r.consumer.Idle? && r.tail + max >= 0
    ensures var e := Run(r, [BeginPop(max, false), ConsumerStep, ConsumerStep]);
            (Inv(e) <==> max >= 0) && (max < 0 ==> e.tail == r.tail + max && e.head == r.head && e.popped == r.popped)
  {
    hide Cell, And, Accepted, Holds, ProducerOk;
    var a, b := BeginPop(max, false), ConsumerStep;
    var acts := [a, b, b];
    var r1 := Step(r, a);
    var r2 := Step(r1, b);
    var r3 := Step(r2, b);
    assert acts[1..] == [b, b] && [b, b][1..] == [b] && [b][1..] == [];
    assert Run(r3, []) == r3;
    assert Run(r2, [b]) == r3;
    assert Run(r1, [b, b]) == r3;
    if max >= 0 {
      NonNegativePopsNeverRewind(r, acts);
      RunIff(r, acts);
    } else {
      assert r3.popped == r.popped;
    }
  }

  // --------------------------------------------------------- the buffer object

  /** Offering one item to a bounded queue. */
  function Offered(q: seq<Item>, capacity: nat, x: Item): seq<Item> { if |q| < capacity then q + [x] else q }

  function OfferedAll(q: seq<Item>, capacity: nat, items: seq<Item>): seq<Item>
    decreases |items|
  {
    if items == [] then q else OfferedAll(Offered(q, capacity, items[0]), capacity, items[1..])
  }

  /** A bulk push leaves the queue that single pushes of the same items would. */
  lemma {:induction false} BulkPushIsSinglePushes(q: seq<Item>, capacity: nat, items: seq<Item>)
    requires |q| <= capacity
    ensures OfferedAll(q, capacity, items) == q + items[..MinInt(|items|, capacity - |q|)]
    decreases |items|
  {
    if items != [] {
      BulkPushIsSinglePushes(Offered(q, capacity, items[0]), capacity, items[1..]);
      if |q| < capacity {
        var n := MinInt(|items|, capacity - |q|);
        assert items[..n] == [items[0]] + items[1..][..n - 1];
      }
    }
  }

  /** `n` single pops: what they return, and what they leave. */
  function Polled(q: seq<Item>, n: nat): (seq<Item>, seq<Item>)
  {
    if n == 0 || q == [] then ([], q)
    else var (got, rest) := Polled(q[1..], n - 1); ([q[0]] + got, rest)
  }

  lemma {:induction false} BulkPopIsSinglePops(q: seq<Item>, n: nat)
    ensures var k := MinInt(n, |q|); Polled(q, n) == (q[..k], q[k..])
  {
    if n > 0 && q != [] {
      BulkPopIsSinglePops(q[1..], n - 1);
      var k := MinInt(n, |q|);
      assert q[..k] == [q[0]] + q[1..][..k - 1];
    }
  }

  class ShmRingBuffer {
    const capacity: int
    const mask: int
    const data: array<Item>
    var head: int
    var tail: int
    var droppedCount: nat

    ghost predicate Valid()
      reads this
    {
      Accepted(capacity) && mask == capacity - 1 && data.Length == capacity &&
      0 <= tail <= head <= tail + capacity
    }

    /** The items pushed and not yet popped, oldest first. */
    ghost function Contents(): seq<Item>
      reads this, data
      requires Valid()
    {
      seq(head - tail, i requires 0 <= i < head - tail reads this, data requires Valid() =>
        data[Cell(tail + i, capacity)])
    }

    constructor (capacity: int)
      requires Accepted(capacity)
      ensures Valid() && Contents() == [] && this.capacity == capacity && droppedCount == 0
      ensures fresh(data)
    {
      this.capacity, mask := capacity, capacity - 1;
      data := new Item[capacity](_ => []);
      head, tail, droppedCount := 0, 0, 0;
    }

    /** Creation as callers see it: any other capacity is an error. */
    static method Create(capacity: int) returns (buffer: ShmRingBuffer?)
      ensures buffer == null <==> !exists k :: capacity == Pow2(k)
      ensures buffer != null ==>
                fresh(buffer) && buffer.Valid() && buffer.capacity == capacity && buffer.Contents() == []
    {
      AcceptedIffPowerOfTwo(capacity);
      if capacity <= 0 || And(capacity, capacity - 1) != 0 { return null; }
      buffer := new ShmRingBuffer(capacity);
    }

    method TryPush(item: Item) returns (ok: bool)
      requires Valid()
      modifies this`head, this`droppedCount, data
      ensures Valid()
      ensures ok <==> |old(Contents())| < capacity
      ensures Contents() == Offered(old(Contents()), capacity, item)
      ensures droppedCount == old(droppedCount) + (if ok then 0 else 1)
    {
      hide Cell, And, Accepted;
      if head - tail >= capacity {
        droppedCount := droppedCount + 1;
        return false;
      }
      MaskIsModulo(head, capacity);
      forall k | tail <= k < head ensures Cell(k, capacity) != Cell(head, capacity) { SlotsDiffer(k, head, capacity); }
      data[And(head, mask)] := item;
      head := head + 1;
      assert Contents() == old(Contents()) + [item];
      return true;
    }

    method TryPop() returns (item: Option<Item>)
      requires Valid()
      modifies this`tail
      ensures Valid()
      ensures item == if old(Contents()) == [] then None else Some(old(Contents())[0])
      ensures Contents() == if old(Contents()) == [] then [] else old(Contents())[1..]
    {
      hide Cell, And, Accepted;
      if head == tail { return None; }
      MaskIsModulo(tail, capacity);
      item := Some(data[And(tail, mask)]);
      tail := tail + 1;
      assert Contents() == old(Contents())[1..];
    }

    /** Pushes as many of the items as fit; unlike `TryPush` it counts no drops. */
    method BulkPush(items: seq<Item>) returns (pushed: int)
      requires Valid()
      modifies this`head, data
      ensures Valid() && pushed == MinInt(|items|, capacity - |old(Contents())|)
      ensures Contents() == old(Contents()) + items[..pushed]
      ensures Contents() == OfferedAll(old(Contents()), capacity, items)
    {
      hide Cell, And, Accepted, OfferedAll;
      var available := capacity - (head - tail);
      pushed := MinInt(|items|, available);
      var i := 0;
      while i < pushed
        invariant 0 <= i <= pushed && head == old(head) && Contents() == old(Contents())
        invariant forall j {:trigger items[j]} :: 0 <= j < i ==> data[Cell(head + j, capacity)] == items[j]
      {
        MaskIsModulo(head + i, capacity);
        forall k | tail <= k < head + i ensures Cell(k, capacity) != Cell(head + i, capacity) {
          SlotsDiffer(k, head + i, capacity);
        }
        data[And(head + i, mask)] := items[i];
        i := i + 1;
      }
      label Written:
      head := head + pushed;
      BulkPushIsSinglePushes(old(Contents()), capacity, items);
      assert forall k :: 0 <= k < old(head) - tail ==> Contents()[k] == old@Written(Contents())[k];
      assert forall j :: 0 <= j < pushed ==> Contents()[old(head) - tail + j] == items[j];
      assert Contents() == old(Contents()) + items[..pushed];
    }

    /** Pops up to `max` items. A negative `max` moves the tail back instead, or fails when the
        counter, which is packed as an unsigned word, would become negative. */
    method BulkPop(max: int) returns (ok: bool, items: seq<Item>)
      requires Valid()
      modifies this`tail
      ensures ok <==> max >= 0 || old(tail) + max >= 0
      ensures max >= 0 ==> Valid() && (items, Contents()) == Polled(old(Contents()), max)
      ensures max < 0 ==> items == [] && tail == if ok then old(tail) + max else old(tail)
    {
      hide Cell, And, Accepted, Polled;
      var available := head - tail;
      var toPop := MinInt(max, available);
      items := [];
      var i := 0;
      while i < toPop
        invariant 0 <= i && (toPop >= 0 ==> i <= toPop) && tail == old(tail)
        invariant toPop < 0 ==> items == []
        invariant toPop >= 0 ==> items == Contents()[..i]
      {
        MaskIsModulo(tail + i, capacity);
        items := items + [data[And(tail + i, mask)]];
        i := i + 1;
      }
      if tail + toPop < 0 { return false, []; }
      tail, ok := tail + toPop, true;
      if max >= 0 {
        BulkPopIsSinglePops(old(Contents()), max);
        assert Contents() == old(Contents())[toPop..];
      }
    }

    method Size() returns (n: int)
      requires Valid()
      ensures n == |Contents()|
    {
      n := head - tail;
    }
  }

}
