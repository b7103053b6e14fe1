/** The sequence-guarded snapshot slot: one writer, word by word, and an observer that copies
    the words between two reads of the sequence number. */
module SnapshotSlot {
  type Word = int

  // ---------------------------------------------------- the slot, access by access

  /** Where the writer stands in `write_snapshot`; `left` are the words still to be stored. */
  datatype Writer =
    | Resting
    | SeqRead(message: seq<Word>, seen: nat)
    | Storing(message: seq<Word>, seen: nat, left: set<nat>)

  /** Where the observer stands; `copy` has the words read so far, in whatever order. */
  datatype Observer =
    | Waiting
    | Copying(before: nat, copy: map<nat, Word>)
    | Checked(before: nat, copy: map<nat, Word>, after: nat)

  /** The slot and both parties, with two history variables: every message completely written,
      after the initial zeros, and the number of writes that failed half-way. */
  datatype Slot = Slot(width: nat, seqno: nat, words: seq<Word>, writer: Writer, observer: Observer,
                       history: seq<seq<Word>>, failed: nat)

  /** One access. `Scratch` is whatever packing may put in a word before its final value.
      `Fail` is the exception of packing a value out of its field's range, which leaves the call
      after the sequence number was made odd. */
  datatype Action =
    | BeginWrite(message: seq<Word>)
    | MarkOdd
    | Scratch(k: nat, value: Word)
    | Store(k: nat)
    | Publish
    | Fail
    | Observe
    | Copy(k: nat)
    | Check

  function Indices(width: nat): (all: set<nat>)
    ensures forall k: nat :: k in all <==> k < width
  {
    if width == 0 then {} else Indices(width - 1) + {width - 1}
  }

  predicate Shaped(s: Slot)
  {
    |s.words| == s.width && |s.history| > 0 &&
    (s.writer.SeqRead? ==> |s.writer.message| == s.width) &&
    (s.writer.Storing? ==> |s.writer.message| == s.width && s.writer.left <= Indices(s.width))
  }

  /** The effect of an access; one that is not next in its party's program does nothing. */
  function Step(s: Slot, a: Action): (s': Slot)
    requires Shaped(s)
    ensures Shaped(s') && s'.width == s.width
  {
    match (a, s.writer, s.observer)
    case (BeginWrite(m), Resting, _) => if |m| == s.width then s.(writer := SeqRead(m, s.seqno)) else s
    case (MarkOdd, SeqRead(m, seen), _) => s.(seqno := seen + 1, writer := Storing(m, seen, Indices(s.width)))
    case (Store(k), Storing(m, seen, left), _) =>
      if k in left then s.(words := s.words[k := m[k]], writer := Storing(m, seen, left - {k})) else s
    case (Scratch(k, v), Storing(_, _, left), _) => if k in left then s.(words := s.words[k := v]) else s
    case (Publish, Storing(m, seen, left), _) =>
      if left == {} then s.(seqno := seen + 2, writer := Resting, history := s.history + [m]) else s
    case (Fail, Storing(_, _, _), _) => s.(writer := Resting, failed := s.failed + 1)
    case (Observe, _, _) => s.(observer := Copying(s.seqno, map[]))
    case (Copy(k), _, Copying(before, copy)) =>
      if k < s.width then s.(observer := Copying(before, copy[k := s.words[k]])) else s
    case (Check, _, Copying(before, copy)) => s.(observer := Checked(before, copy, s.seqno))
    case _ => s
  }

  function Run(s: Slot, acts: seq<Action>): (s': Slot)
    requires Shaped(s)
    ensures Shaped(s') && s'.width == s.width
    decreases |acts|
  {
    if acts == [] then s else Run(Step(s, acts[0]), acts[1..])
  }

  /** A slot just zeroed. */
  predicate Zeroed(s: Slot)
  {
    s.seqno == 0 && s.words == seq(s.width, _ => 0) && s.writer.Resting? && s.observer.Waiting? &&
    s.history == [s.words] && s.failed == 0
  }

  // ------------------------------------------------------------ the numbering law

  /** The sequence number counts two for a completed write and one for a failed one. */
  predicate Numbered(s: Slot)
  {
    var rest := 2 * (|s.history| - 1) + s.failed;
    match s.writer
    case Resting => s.seqno == rest
    case SeqRead(_, seen) => s.seqno == seen == rest
    case Storing(_, seen, _) => seen == rest && s.seqno == rest + 1
  }

  lemma {:induction false} RunNumbered(s: Slot, acts: seq<Action>)
    requires Shaped(s) && Numbered(s)
    ensures Numbered(Run(s, acts))
    decreases |acts|
  {
    if acts != [] {
      assert Numbered(Step(s, acts[0]));
      RunNumbered(Step(s, acts[0]), acts[1..]);
    }
  }

  /** At rest the number is twice the completed writes plus the failed ones, so it is even
      exactly when an even number of writes failed. */
  lemma RestNumber(s: Slot, acts: seq<Action>)
    requires Shaped(s) && Zeroed(s)
    ensures var e := Run(s, acts);
            e.writer.Resting? ==>
              && e.seqno == 2 * (|e.history| - 1) + e.failed
              && (e.seqno % 2 == 0 <==> e.failed % 2 == 0)
  {
    RunNumbered(s, acts);
  }

  // ----------------------------------------------------------- safety of observers

  /** Between writes the words are the last complete message; during one they are that or the
      new message, word by word. */
  predicate WordsOk(s: Slot)
    requires Shaped(s)
  {
    s.failed == 0 && |s.history[|s.history| - 1]| == s.width &&
    match s.writer
    case Storing(m, _, left) => forall k :: 0 <= k < s.width && k !in left ==> s.words[k] == m[k]
    case _ => s.words == s.history[|s.history| - 1]
  }

  /** What an even first read promises: that snapshot exists, and each word copied so far is
      its word unless the number has moved on since. */
  predicate CopyOk(s: Slot)
    requires Shaped(s)
  {
    match s.observer
    case Waiting => true
    case Copying(before, copy) => before <= s.seqno && (before % 2 == 0 ==> Snapped(s, before, copy, s.seqno))
    case Checked(before, copy, after) =>
      before <= after <= s.seqno && (before % 2 == 0 ==> Snapped(s, before, copy, after))
  }

  predicate Snapped(s: Slot, before: nat, copy: map<nat, Word>, now: nat)
  {
    before / 2 < |s.history| && |s.history[before / 2]| == s.width && copy.Keys <= Indices(s.width) &&
    (before == now ==> forall k :: k in copy ==> copy[k] == s.history[before / 2][k])
  }

  predicate Inv(s: Slot) { Shaped(s) && Numbered(s) && WordsOk(s) && CopyOk(s) }

  lemma StepKeeps(s: Slot, a: Action)
    requires Inv(s) && !a.Fail?
    ensures Inv(Step(s, a))
  {
    var s' := Step(s, a);
    assert forall k :: 0 <= k < |s.history| ==> s'.history[k] == s.history[k];
    if a.Publish? && s.writer.Storing? && s.writer.left == {} {
      assert s'.words == s.writer.message;
    }
  }

  lemma {:induction false} RunKeeps(s: Slot, acts: seq<Action>)
    requires Inv(s) && Fail !in acts
    ensures Inv(Run(s, acts))
    decreases |acts|
  {
    if acts != [] {
      StepKeeps(s, acts[0]);
      RunKeeps(Step(s, acts[0]), acts[1..]);
    }
  }

  /** Under every interleaving in which no write fails, an observer that read the same even
      number before and after copying all the words has one complete snapshot: message number
      `before / 2`, or the zeros. */
  lemma ObservedSnapshot(s: Slot, acts: seq<Action>)
    requires Shaped(s) && Zeroed(s) && Fail !in acts
    ensures var e := Run(s, acts);
      e.observer.Checked? && e.observer.before == e.observer.after && e.observer.before % 2 == 0 &&
      e.observer.copy.Keys == Indices(e.width) ==>
      e.observer.before / 2 < |e.history| && CopyOf(e.observer.copy, e.width) == e.history[e.observer.before / 2]
  {
    RunKeeps(s, acts);
  }

  /** The observed message is no older than the last one complete at the first read, and the
      slot held it until the second. */
  lemma ObservedIsLatest(s: Slot, acts: seq<Action>, more: seq<Action>)
    requires Shaped(s) && Zeroed(s) && Fail !in acts && Fail !in more
    ensures var e := Run(s, acts); var f := Run(e, more);
      e.seqno == f.seqno && e.seqno % 2 == 0 ==>
      e.seqno == 2 * (|e.history| - 1) && f.history == e.history && f.words == e.words == e.history[|e.history| - 1]
  {
    var e := Run(s, acts);
    RunKeeps(s, acts);
    RunKeeps(e, more);
    HistoryGrows(e, more);
  }

  lemma {:induction false} HistoryGrows(s: Slot, acts: seq<Action>)
    requires Shaped(s)
    ensures s.history <= Run(s, acts).history
    decreases |acts|
  {
    if acts != [] { HistoryGrows(Step(s, acts[0]), acts[1..]); }
  }

  // ------------------------------------------------------------- straight-line runs

  lemma {:induction false} RunSplits(s: Slot, a: seq<Action>, b: seq<Action>)
    requires Shaped(s)
    ensures Run(s, a + b) == Run(Run(s, a), b)
    decreases |a|
  {
    if a == [] {
      assert a + b == b;
    } else {
      assert (a + b)[1..] == a[1..] + b;
      RunSplits(Step(s, a[0]), a[1..], b);
    }
  }

  lemma RunOne(s: Slot, a: Action)
    requires Shaped(s)
    ensures Run(s, [a]) == Step(s, a)
  {
  }

  function Copies(n: nat): seq<Action> { if n == 0 then [] else Copies(n - 1) + [Copy(n - 1)] }

  function Stores(n: nat): seq<Action> { if n == 0 then [] else Stores(n - 1) + [Store(n - 1)] }

  function ReadThrough(width: nat): seq<Action> { [Observe] + (Copies(width) + [Check]) }

  function WholeWrite(message: seq<Word>): seq<Action>
  {
    [BeginWrite(message)] + ([MarkOdd] + (Stores(|message|) + [Publish]))
  }

  function FirstWords(words: seq<Word>, n: nat): map<nat, Word>
    requires n <= |words|
  {
    if n == 0 then map[] else FirstWords(words, n - 1)[n - 1 := words[n - 1]]
  }

  lemma StartsEmpty(words: seq<Word>)
    ensures FirstWords(words, 0) == map[]
  {
  }

  lemma {:induction false} CopiesRun(s: Slot, n: nat)
    requires Shaped(s) && n <= s.width && s.observer == Copying(s.seqno, map[])
    ensures Run(s, Copies(n)) == s.(observer := Copying(s.seqno, FirstWords(s.words, n)))
  {
    if n > 0 {
      CopiesRun(s, n - 1);
      RunSplits(s, Copies(n - 1), [Copy(n - 1)]);
      RunOne(Run(s, Copies(n - 1)), Copy(n - 1));
    }
  }

  /** An observer left alone gets the words as they stand, and the same number twice. */
  lemma UndisturbedRead(s: Slot)
    requires Shaped(s)
    ensures Run(s, ReadThrough(s.width)) == s.(observer := Checked(s.seqno, FirstWords(s.words, s.width), s.seqno))
  {
    hide Run, Copies, FirstWords;
    var s1 := Step(s, Observe);
    StartsEmpty(s.words);
    RunSplits(s, [Observe], Copies(s.width) + [Check]);
    RunOne(s, Observe);
    CopiesRun(s1, s.width);
    RunSplits(s1, Copies(s.width), [Check]);
    RunOne(Run(s1, Copies(s.width)), Check);
  }

  /** When the guard works: an observer reading in the middle of a write is turned away if and
      only if an even number of earlier writes failed; after an odd number it accepts the
      half-written words, whatever they are. */
  lemma HalfWrittenAcceptedIff(s: Slot, acts: seq<Action>)
    requires Shaped(s) && Zeroed(s) && Run(s, acts).writer.Storing?
    ensures var e := Run(s, acts); var o := Run(e, ReadThrough(e.width)).observer;
            o == Checked(e.seqno, FirstWords(e.words, e.width), e.seqno) && (o.before % 2 == 0 <==> e.failed % 2 == 1)
  {
    RunNumbered(s, acts);
    UndisturbedRead(Run(s, acts));
  }

  lemma {:induction false} StoresRun(s: Slot, n: nat)
    requires Shaped(s) && n <= s.width && s.writer.Storing? && s.writer.left == Indices(s.width)
    ensures var m := s.writer.message;
            Run(s, Stores(n)) == s.(words := m[..n] + s.words[n..],
                                    writer := Storing(m, s.writer.seen, Indices(s.width) - Indices(n)))
  {
    var m := s.writer.message;
    if n == 0 {
      assert m[..0] + s.words[0..] == s.words && s.writer.left == Indices(s.width) - Indices(0);
    } else {
      StoresRun(s, n - 1);
      RunSplits(s, Stores(n - 1), [Store(n - 1)]);
      RunOne(Run(s, Stores(n - 1)), Store(n - 1));
      assert (m[..n - 1] + s.words[n - 1..])[n - 1 := m[n - 1]] == m[..n] + s.words[n..];
      assert Indices(s.width) - Indices(n - 1) - {n - 1} == Indices(s.width) - Indices(n);
    }
  }

  /** A whole call, uninterrupted: the words are the message and the number has grown by two. */
  lemma WholeWriteRun(s: Slot, message: seq<Word>)
    requires Shaped(s) && s.writer.Resting? && |message| == s.width
    ensures Run(s, WholeWrite(message)) == s.(seqno := s.seqno + 2, words := message, history := s.history + [message])
  {
    hide Run, Stores;
    var s1 := Step(s, BeginWrite(message));
    var s2 := Step(s1, MarkOdd);
    RunSplits(s, [BeginWrite(message)], [MarkOdd] + (Stores(s.width) + [Publish]));
    RunOne(s, BeginWrite(message));
    RunSplits(s1, [MarkOdd], Stores(s.width) + [Publish]);
    RunOne(s1, MarkOdd);
    StoresRun(s2, s.width);
    RunSplits(s2, Stores(s.width), [Publish]);
    RunOne(Run(s2, Stores(s.width)), Publish);
    assert message[..s.width] + s.words[s.width..] == message;
  }

  // ------------------------------------------------- what a failed write leaves behind

  /** The observer saw one even number before and after copying every word. */
  predicate Accepts(s: Slot)
  {
    s.observer.Checked? && s.observer.before == s.observer.after && s.observer.before % 2 == 0 &&
    s.observer.copy.Keys == Indices(s.width)
  }

  function CopyOf(copy: map<nat, Word>, width: nat): (c: seq<Word>)
    requires copy.Keys == Indices(width)
    ensures |c| == width && forall k :: 0 <= k < width ==> c[k] == copy[k]
  {
    seq(width, k requires 0 <= k < width => assert k in copy.Keys; copy[k])
  }

  /** What the observer accepts somebody wrote. */
  predicate Honest(s: Slot) { Accepts(s) ==> CopyOf(s.observer.copy, s.width) in s.history }

  /** What holds in every state, failed writes or not. */
  predicate Reached(s: Slot)
  {
    Shaped(s) && Numbered(s) && (forall i :: 0 <= i < |s.history| ==> |s.history[i]| == s.width) &&
    (s.writer.Storing? ==>
      forall k: nat :: k < s.width && k !in s.writer.left ==> s.words[k] == s.writer.message[k]) &&
    (match s.observer
     case Waiting => true
     case Copying(before, copy) => before <= s.seqno && copy.Keys <= Indices(s.width)
     case Checked(before, copy, after) => before <= after <= s.seqno && copy.Keys <= Indices(s.width))
  }

  lemma ReachedStep(s: Slot, a: Action)
    requires Reached(s)
    ensures Reached(Step(s, a))
  {
    var t := Step(s, a);
    assert forall i :: 0 <= i < |s.history| ==> t.history[i] == s.history[i];
  }

  lemma {:induction false} ReachedRun(s: Slot, acts: seq<Action>)
    requires Reached(s)
    ensures Reached(Run(s, acts))
    decreases |acts|
  {
    if acts != [] {
      ReachedStep(s, acts[0]);
      ReachedRun(Step(s, acts[0]), acts[1..]);
    }
  }

  /** Every message the observer could still end up with, reading the remaining words or any
      words again, was written. */
  ghost predicate Completes(copy: map<nat, Word>, words: seq<Word>, history: seq<seq<Word>>)
  {
    forall c: seq<Word> :: |c| == |words| && Mixes(c, copy, words) ==> c in history
  }

  predicate Mixes(c: seq<Word>, copy: map<nat, Word>, words: seq<Word>)
    requires |c| == |words|
  {
    forall k: nat :: k < |c| ==> c[k] == words[k] || (k in copy && c[k] == copy[k])
  }

  /** The observer under way can do no harm. */
  ghost predicate ReaderOk(s: Slot)
  {
    match s.observer
    case Waiting => true
    case Copying(before, copy) => before == s.seqno && before % 2 == 0 ==> Completes(copy, s.words, s.history)
    case Checked(_, _, _) => Honest(s)
  }

  /** An even number of writes failed, and the words at rest are a whole message. */
  predicate Restored(s: Slot) { s.failed % 2 == 0 && (s.writer.Storing? || s.words in s.history) }

  lemma ReaderKeeps(s: Slot, a: Action)
    requires Reached(s) && Restored(s) && ReaderOk(s) && (a.Observe? || a.Copy? || a.Check?)
    ensures ReaderOk(Step(s, a)) && Restored(Step(s, a))
  {
    var t := Step(s, a);
    if a.Copy? && s.observer.Copying? && a.k < s.width && s.observer.before == s.seqno && s.seqno % 2 == 0 {
      forall c: seq<Word> | |c| == |s.words| && Mixes(c, t.observer.copy, s.words) ensures c in s.history {
        assert Mixes(c, s.observer.copy, s.words);
      }
    }
    if a.Observe? {
      forall c: seq<Word> | |c| == |s.words| && Mixes(c, map[], s.words) ensures c == s.words { }
    }
    if a.Check? && s.observer.Copying? && Accepts(t) {
      assert Mixes(CopyOf(t.observer.copy, s.width), s.observer.copy, s.words);
    }
  }

  lemma WriterKeeps(s: Slot, a: Action)
    requires Reached(s) && Restored(s) && ReaderOk(s) && !(a.Observe? || a.Copy? || a.Check? || a.Fail?)
    ensures ReaderOk(Step(s, a)) && Restored(Step(s, a))
  {
    hide Completes;
    var t := Step(s, a);
    if a.Publish? && s.writer.Storing? && s.writer.left == {} {
      assert s.words == s.writer.message;
      assert t.history[|s.history|] == s.words;
    }
  }

  lemma {:induction false} RestoredRun(s: Slot, acts: seq<Action>)
    requires Reached(s) && Restored(s) && ReaderOk(s) && Fail !in acts
    ensures Honest(Run(s, acts))
    decreases |acts|
  {
    hide Restored, Completes, Reached;
    ReachedRun(s, acts);
    ReachedIsShaped(s);
    if acts == [] {
      ReaderHonest(s);
    } else {
      var a := acts[0];
      if a.Observe? || a.Copy? || a.Check? { ReaderKeeps(s, a); } else { WriterKeeps(s, a); }
      ReachedStep(s, a);
      RestoredRun(Step(s, a), acts[1..]);
    }
  }

  lemma ReaderHonest(s: Slot)
    requires ReaderOk(s)
    ensures Honest(s)
  {
  }

  // The converse: each way for the condition to fail has its dishonest continuation.

  lemma {:induction false} FirstWordsAll(words: seq<Word>, n: nat)
    requires n <= |words|
    ensures FirstWords(words, n).Keys == Indices(n) && forall k: nat :: k < n ==> FirstWords(words, n)[k] == words[k]
  {
    if n > 0 { FirstWordsAll(words, n - 1); }
  }

  lemma {:induction false} NoFails(n: nat)
    ensures Fail !in Copies(n) && Fail !in Stores(n)
  {
    if n > 0 { NoFails(n - 1); }
  }

  /** Reading straight through under an even number accepts the words as they stand. */
  lemma ReadsWords(s: Slot)
    requires Shaped(s) && s.seqno % 2 == 0 && s.words !in s.history
    ensures Fail !in ReadThrough(s.width) && !Honest(Run(s, ReadThrough(s.width)))
  {
    hide Run;
    NoFails(s.width);
    UndisturbedRead(s);
    FirstWordsAll(s.words, s.width);
    assert CopyOf(FirstWords(s.words, s.width), s.width) == s.words;
  }

  lemma {:induction false} StoresKeep(s: Slot, n: nat)
    requires Shaped(s) && s.writer.Storing?
    ensures var e := Run(s, Stores(n));
            e == s.(words := e.words, writer := Storing(s.writer.message, s.writer.seen, s.writer.left - Indices(n)))
  {
    if n == 0 {
      assert s.writer.left - Indices(0) == s.writer.left;
    } else {
      StoresKeep(s, n - 1);
      RunSplits(s, Stores(n - 1), [Store(n - 1)]);
      RunOne(Run(s, Stores(n - 1)), Store(n - 1));
      assert s.writer.left - Indices(n - 1) - {n - 1} == s.writer.left - Indices(n);
    }
  }

  /** The writer can bring the call it is in to its end. */
  lemma Finishes(s: Slot) returns (acts: seq<Action>)
    requires Reached(s)
    ensures Fail !in acts && Run(s, acts).writer.Resting? && Run(s, acts).failed == s.failed
    ensures Run(s, acts).width == s.width
  {
    hide Run;
    if s.writer.Storing? {
      acts := FinishesStoring(s);
    } else if s.writer.SeqRead? {
      var t := Step(s, MarkOdd);
      ReachedStep(s, MarkOdd);
      var rest := FinishesStoring(t);
      acts := [MarkOdd] + rest;
      RunSplits(s, [MarkOdd], rest);
      RunOne(s, MarkOdd);
    } else {
      acts := [];
      RunNone(s);
    }
  }

  lemma RunNone(s: Slot)
    requires Shaped(s)
    ensures Run(s, []) == s
  {
  }

  lemma FinishesStoring(s: Slot) returns (acts: seq<Action>)
    requires Reached(s) && s.writer.Storing?
    ensures Fail !in acts && Run(s, acts).writer.Resting? && Run(s, acts).failed == s.failed
    ensures Run(s, acts).width == s.width
  {
    hide Run;
    NoFails(s.width);
    StoresKeep(s, s.width);
    var t := Run(s, Stores(s.width));
    assert s.writer.left - Indices(s.width) == {};
    acts := Stores(s.width) + [Publish];
    RunSplits(s, Stores(s.width), [Publish]);
    RunOne(t, Publish);
  }

  /** A first word that no message of the history begins with. */
  function NewWord(history: seq<seq<Word>>): (w: Word)
    requires forall i :: 0 <= i < |history| ==> |history[i]| > 0
    ensures forall i :: 0 <= i < |history| ==> history[i][0] < w
  {
    if history == [] then 0
    else
      var w := NewWord(history[1..]);
      assert forall i :: 0 < i < |history| ==> history[i] == history[1..][i - 1];
      if history[0][0] < w then w else history[0][0] + 1
  }

  /** After an odd number of failures the next write shows its first word before its last. */
  lemma OddShows(s: Slot) returns (acts: seq<Action>)
    requires Reached(s) && s.writer.Resting? && s.failed % 2 == 1 && s.width > 0
    ensures Fail !in acts && !Honest(Run(s, acts))
  {
    hide Run, Honest;
    var w := NewWord(s.history);
    var m := seq(s.width, _ => w);
    var s1 := Step(s, BeginWrite(m));
    var s2 := Step(s1, MarkOdd);
    var s3 := Step(s2, Store(0));
    assert s3.words[0] == w && s3.history == s.history && s3.words !in s3.history;
    ReadsWords(s3);
    var read := ReadThrough(s.width);
    acts := [BeginWrite(m)] + ([MarkOdd] + ([Store(0)] + read));
    RunSplits(s, [BeginWrite(m)], [MarkOdd] + ([Store(0)] + read));
    RunOne(s, BeginWrite(m));
    RunSplits(s1, [MarkOdd], [Store(0)] + read);
    RunOne(s1, MarkOdd);
    RunSplits(s2, [Store(0)], read);
    RunOne(s2, Store(0));
  }

  /** Reads again the words that `c` has from the slot. */
  function Rereads(c: seq<Word>, words: seq<Word>, n: nat): seq<Action>
    requires n <= |c| == |words|
  {
    if n == 0 then [] else Rereads(c, words, n - 1) + (if c[n - 1] == words[n - 1] then [Copy(n - 1)] else [])
  }

  lemma CopyStep(s: Slot, k: nat)
    requires Shaped(s) && s.observer.Copying? && k < s.width
    ensures Step(s, Copy(k)) == s.(observer := Copying(s.observer.before, s.observer.copy[k := s.words[k]]))
  {
  }

  lemma {:induction false} RereadsRun(s: Slot, c: seq<Word>, n: nat)
    requires Reached(s) && s.observer.Copying? && |c| == s.width && n <= s.width && Mixes(c, s.observer.copy, s.words)
    ensures Fail !in Rereads(c, s.words, n)
    ensures var e := Run(s, Rereads(c, s.words, n));
            e.observer.Copying? && e == s.(observer := Copying(s.observer.before, e.observer.copy)) &&
            e.observer.copy.Keys <= Indices(s.width) && Mixes(c, e.observer.copy, s.words) &&
            forall k: nat :: k < n ==> k in e.observer.copy && e.observer.copy[k] == c[k]
  {
    hide Run, Numbered, Shaped, Step;
    ReachedIsShaped(s);
    if n == 0 {
      RunNone(s);
    } else {
      RereadsRun(s, c, n - 1);
      var e := Run(s, Rereads(c, s.words, n - 1));
      if c[n - 1] == s.words[n - 1] {
        RunSplits(s, Rereads(c, s.words, n - 1), [Copy(n - 1)]);
        RunOne(e, Copy(n - 1));
        CopyStep(e, n - 1);
        assert Step(e, Copy(n - 1)) == e.(observer := Copying(s.observer.before, e.observer.copy[n - 1 := c[n - 1]]));
      } else {
        assert Rereads(c, s.words, n) == Rereads(c, s.words, n - 1);
      }
    }
  }

  lemma ReaderShows(s: Slot) returns (acts: seq<Action>)
    requires Reached(s) && !ReaderOk(s)
    ensures Fail !in acts && !Honest(Run(s, acts))
  {
    hide Run;
    if s.observer.Checked? {
      acts := [];
      RunNone(s);
    } else {
      var c: seq<Word> :| |c| == |s.words| && Mixes(c, s.observer.copy, s.words) && c !in s.history;
      RereadsRun(s, c, s.width);
      var again := Rereads(c, s.words, s.width);
      var e := Run(s, again);
      acts := again + [Check];
      RunSplits(s, again, [Check]);
      RunOne(e, Check);
      assert e.observer.copy.Keys == Indices(s.width);
      assert CopyOf(e.observer.copy, s.width) == c;
    }
  }

  lemma NotRestoredShows(s: Slot) returns (acts: seq<Action>)
    requires Reached(s) && !Restored(s) && s.width > 0
    ensures Fail !in acts && !Honest(Run(s, acts))
  {
    hide Run, Honest;
    if s.failed % 2 == 0 {
      acts := ReadThrough(s.width);
      ReadsWords(s);
    } else {
      var first := Finishes(s);
      ReachedRun(s, first);
      var rest := OddShows(Run(s, first));
      acts := first + rest;
      RunSplits(s, first, rest);
    }
  }

  /** In a state of any run, with failed writes in it: as long as no further write fails, every
      copy an observer accepts is a message completely written (or the zeros) if and only if an
      even number of writes failed, the words, unless a write is under way, are a whole message,
      and the observer, if it has begun, can only complete one. */
  lemma AcceptedIsWrittenIff(s: Slot, acts: seq<Action>)
    requires Shaped(s) && Zeroed(s) && s.width > 0
    ensures var e := Run(s, acts);
            (forall more :: Fail !in more ==> Honest(Run(e, more))) <==> Restored(e) && ReaderOk(e)
  {
    ReachedRun(s, acts);
    HonestIff(Run(s, acts));
  }

  lemma HonestIff(e: Slot)
    requires Reached(e) && e.width > 0
    ensures (forall more :: Fail !in more ==> Honest(Run(e, more))) <==> Restored(e) && ReaderOk(e)
  {
    hide Run, Honest, Restored, ReaderOk, Reached;
    ReachedIsShaped(e);
    if Restored(e) && ReaderOk(e) {
      forall more | Fail !in more ensures Honest(Run(e, more)) { RestoredRun(e, more); }
    } else if !Restored(e) {
      var more := NotRestoredShows(e);
    } else {
      var more := ReaderShows(e);
    }
  }

  lemma ReachedIsShaped(s: Slot)
    requires Reached(s)
    ensures Shaped(s)
  {
  }

  /** For an observer that begins when the writer is at rest: it is safe from then on if and only
      if an even number of writes failed and the words are a message of the history. */
  lemma NewReaderSafeIff(s: Slot, acts: seq<Action>)
    requires Shaped(s) && Zeroed(s) && s.width > 0 && Run(s, acts).writer.Resting?
    ensures var e := Run(s, acts).(observer := Waiting);
            (forall more :: Fail !in more ==> Honest(Run(e, more))) <==> e.failed % 2 == 0 && e.words in e.history
  {
    ReachedRun(s, acts);
    HonestIff(Run(s, acts).(observer := Waiting));
  }

  const TWO_FAILURES := [BeginWrite([1, 1]), MarkOdd, Store(0), Fail, BeginWrite([2, 2]), MarkOdd, Fail]

  lemma TwoFailuresRun(s: Slot)
    requires Zeroed(s) && s.width == 2
    ensures Run(s, TWO_FAILURES) == s.(seqno := 2, words := [1, 0], failed := 2)
  {
    hide Run;
    assert 0 in Indices(2) && s.words == [0, 0];
    var s1 := Step(s, TWO_FAILURES[0]);
    var s2 := Step(s1, TWO_FAILURES[1]);
    var s3 := Step(s2, TWO_FAILURES[2]);
    var s4 := Step(s3, TWO_FAILURES[3]);
    var s5 := Step(s4, TWO_FAILURES[4]);
    var s6 := Step(s5, TWO_FAILURES[5]);
    var e := Step(s6, TWO_FAILURES[6]);
    RunFirst(s, TWO_FAILURES);
    RunFirst(s1, TWO_FAILURES[1..]);
    RunFirst(s2, TWO_FAILURES[2..]);
    RunFirst(s3, TWO_FAILURES[3..]);
    RunFirst(s4, TWO_FAILURES[4..]);
    RunFirst(s5, TWO_FAILURES[5..]);
    RunFirst(s6, TWO_FAILURES[6..]);
    RunNone(e);
  }

  /** An even number of failures alone does not help: the first leaves half of its message, the
      second nothing, and a reader at rest takes the mixture. */
  lemma TwoFailuresTorn(s: Slot)
    requires Zeroed(s) && s.width == 2
    ensures var e := Run(s, TWO_FAILURES);
            e.writer.Resting? && e.failed == 2 && e.seqno == 2 && e.words == [1, 0] && e.history == [[0, 0]] &&
            Accepts(Run(e, ReadThrough(2))) && !Honest(Run(e, ReadThrough(2)))
  {
    hide Run, ReadThrough;
    TwoFailuresRun(s);
    assert s.words == [0, 0];
    var e := Run(s, TWO_FAILURES);
    ReadsWords(e);
    UndisturbedRead(e);
    FirstWordsAll(e.words, 2);
  }

  lemma RunCons(s: Slot, a: Action, rest: seq<Action>)
    requires Shaped(s)
    ensures Run(s, [a] + rest) == Run(Step(s, a), rest)
  {
    assert ([a] + rest)[1..] == rest;
  }

  const FAILING := [BeginWrite([2, 2])] + ([MarkOdd] + [Fail])
  const OVERTAKEN := [BeginWrite([0, 0])] + ([MarkOdd] + ([Observe] + ([Copy(0)] + (Stores(2) + [Fail]))))

  lemma FailingRun(s: Slot)
    requires Shaped(s) && s.width == 2 && s.writer.Resting?
    ensures Run(s, FAILING) == s.(seqno := s.seqno + 1, failed := s.failed + 1)
  {
    hide Run;
    var s1 := Step(s, BeginWrite([2, 2]));
    var s2 := Step(s1, MarkOdd);
    RunCons(s, BeginWrite([2, 2]), [MarkOdd] + [Fail]);
    RunCons(s1, MarkOdd, [Fail]);
    RunOne(s2, Fail);
  }

  lemma OvertakenRun(s: Slot)
    requires Shaped(s) && s.width == 2 && s.words == [1, 1] && s.writer.Resting?
    ensures Run(s, OVERTAKEN) == s.(seqno := s.seqno + 1, words := [0, 0], failed := s.failed + 1,
                                    observer := Copying(s.seqno + 1, map[0 := 1]))
  {
    hide Run, Stores;
    var m := [0, 0];
    var s1 := Step(s, BeginWrite(m));
    var s2 := Step(s1, MarkOdd);
    var s3 := Step(s2, Observe);
    var s4 := Step(s3, Copy(0));
    StoresRun(s4, 2);
    var s5 := Run(s4, Stores(2));
    assert m[..2] + s4.words[2..] == m;
    RunCons(s, BeginWrite(m), [MarkOdd] + ([Observe] + ([Copy(0)] + (Stores(2) + [Fail]))));
    RunCons(s1, MarkOdd, [Observe] + ([Copy(0)] + (Stores(2) + [Fail])));
    RunCons(s2, Observe, [Copy(0)] + (Stores(2) + [Fail]));
    RunCons(s3, Copy(0), Stores(2) + [Fail]);
    RunSplits(s4, Stores(2), [Fail]);
    RunOne(s5, Fail);
  }

  /** Why an observer under way has a condition of its own: the failures are even in number and the
      words a message of the history, but this one began while they were being stored. */
  lemma BegunReaderTorn(s: Slot)
    requires Zeroed(s) && s.width == 2
    ensures var e := Run(s, WholeWrite([1, 1]) + (FAILING + OVERTAKEN));
            e.writer.Resting? && Restored(e) && e.history == [[0, 0], [1, 1]] && !ReaderOk(e)
  {
    hide Run, WholeWrite, FAILING, OVERTAKEN;
    assert s.words == [0, 0];
    WholeWriteRun(s, [1, 1]);
    RunSplits(s, WholeWrite([1, 1]), FAILING + OVERTAKEN);
    var t := Run(s, WholeWrite([1, 1]));
    FailingRun(t);
    RunSplits(t, FAILING, OVERTAKEN);
    OvertakenRun(Run(t, FAILING));
    var e := Run(t, FAILING + OVERTAKEN);
    assert e.words == e.history[0];
    assert Mixes([1, 0], map[0 := 1], e.words);
  }

  lemma RunFirst(s: Slot, acts: seq<Action>)
    requires Shaped(s) && acts != []
    ensures Run(s, acts) == Run(Step(s, acts[0]), acts[1..])
  {
  }

  // ---------------------------------------------------------------- the writer object

  /** One slot in memory. */
  class Snapshot {
    var seqno: nat
    const words: array<Word>

    constructor (width: nat)
      ensures seqno == 0 && words[..] == seq(width, _ => 0) && fresh(words)
    {
      seqno := 0;
      words := new Word[width](_ => 0);
    }
  }

  class ShmMarketDataWriter {
    const slots: seq<Snapshot>
    const width: nat

    ghost predicate Valid()
      reads slots, set s | s in slots :: s.words
    {
      forall i, j :: 0 <= i < j < |slots| ==> slots[i] != slots[j] && slots[i].words != slots[j].words
    }

    /** Writes a message to its symbol's slot; an unknown symbol is ignored. */
    method WriteSnapshot(symbol: nat, message: seq<Word>)
      requires Valid() && |message| == width && forall s :: s in slots ==> s.words.Length == width
      modifies slots, set s | s in slots :: s.words
      ensures symbol < |slots| ==>
                slots[symbol].seqno == old(slots[symbol].seqno) + 2 && slots[symbol].words[..] == message
      ensures forall i :: 0 <= i < |slots| && i != symbol ==>
                slots[i].seqno == old(slots[i].seqno) && slots[i].words[..] == old(slots[i].words[..])
    {
      if symbol >= |slots| { return; }
      var slot := slots[symbol];
      var seen := slot.seqno;
      slot.seqno := seen + 1;
      var k := 0;
      while k < width
        invariant 0 <= k <= width && slot.words[..k] == message[..k] && slot.seqno == seen + 1
        invariant forall i :: 0 <= i < |slots| && i != symbol ==>
                    slots[i].seqno == old(slots[i].seqno) && slots[i].words[..] == old(slots[i].words[..])
      {
        slot.words[k] := message[k];
        k := k + 1;
      }
      slot.seqno := seen + 2;
    }
  }
}
