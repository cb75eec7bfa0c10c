/**
Readers and the writer of the history ring, one node at a time, under the history lock.  Whatever the interleaving,
a reader gets the ring as it was between two batches.
*/
module HistoryLocking {
  import opened Wrappers
  import opened Events
  import opened HistoryRing

  type ReaderId = nat

  // A GetHistory call: where its cursor is and what it has collected.
  datatype Reader = Reader(current: nat, history: seq<Event>)

  // The EventHistory case of Run: the batch it is storing and how far it is.
  datatype Writer = Unlocked | Writing(batch: seq<Event>, done: nat)

  datatype State = State(
    cells: seq<Option<Event>>,
    first: nat,
    last: nat,
    writer: Writer,
    readers: map<ReaderId, Reader>,   // the calls that hold the read lock
    batches: seq<seq<Event>>          // auxiliary: the batches stored completely
  )

  datatype Action =
    | WriteLock(batch: seq<Event>)
    | WriteOne
    | WriteUnlock
    | ReadLock(r: ReaderId)
    | ReadOne(r: ReaderId)
    | ReadUnlock(r: ReaderId)

  predicate Shaped(s: State) {
    s.first < |s.cells| && s.last < |s.cells| && forall r :: r in s.readers ==> s.readers[r].current < |s.cells|
  }

  predicate Enabled(s: State, a: Action) {
    Shaped(s) &&
    match a
    case WriteLock(_) => s.writer == Unlocked && s.readers == map[]
    case WriteOne => s.writer.Writing? && s.writer.done < |s.writer.batch|
    case WriteUnlock => s.writer.Writing? && s.writer.done == |s.writer.batch|
    case ReadLock(r) => s.writer == Unlocked && r !in s.readers
    case ReadOne(r) => r in s.readers && s.readers[r].current != s.last
    case ReadUnlock(r) => r in s.readers && s.readers[r].current == s.last
  }

  function Next(s: State, a: Action): State
    requires Enabled(s, a)
  {
    var n := |s.cells|;
    match a
    case WriteLock(batch) => s.(writer := Writing(batch, 0))
    case WriteOne =>
      s.(cells := s.cells[s.last := Some(s.writer.batch[s.writer.done])],
         last := NextLast(s.last, n), first := NextFirst(s.first, s.last, n),
         writer := s.writer.(done := s.writer.done + 1))
    case WriteUnlock => s.(writer := Unlocked, batches := s.batches + [s.writer.batch])
    case ReadLock(r) => s.(readers := s.readers[r := Reader(s.first, [])])
    case ReadOne(r) =>
      var x := s.readers[r];
      var found := if s.cells[x.current].Some? then [s.cells[x.current].value] else [];
      s.(readers := s.readers[r := Reader(Wrap(x.current + 1, n), x.history + found)])
    case ReadUnlock(r) => s.(readers := s.readers - {r})
  }

  function Concat(batches: seq<seq<Event>>): seq<Event> {
    if batches == [] then [] else Concat(batches[..|batches| - 1]) + batches[|batches| - 1]
  }

  // Everything stored so far, starting with what was loaded.
  function Log(loaded: seq<Event>, s: State): seq<Event> {
    loaded + Concat(s.batches) +
    (if s.writer.Writing? && s.writer.done <= |s.writer.batch| then s.writer.batch[..s.writer.done] else [])
  }

  // A reader that is k steps after the start has collected the first k of the events that are held.
  ghost predicate HasRead(first: nat, n: nat, held: seq<Event>, x: Reader, k: nat) {
    k <= |held| && x.current == At(first, k, n) && x.history == held[..k]
  }

  ghost predicate ReaderInv(first: nat, n: nat, held: seq<Event>, x: Reader) {
    exists k: nat :: HasRead(first, n, held, x, k)
  }

  ghost predicate ReadersInv(first: nat, n: nat, held: seq<Event>, readers: map<ReaderId, Reader>) {
    forall r :: r in readers ==> ReaderInv(first, n, held, readers[r])
  }

  // The events that are in the ring.
  function Held(loaded: seq<Event>, s: State): seq<Event>
    requires |s.cells| >= 1
  {
    Last(Log(loaded, s), |s.cells| - 1)
  }

  ghost predicate Inv(loaded: seq<Event>, s: State) {
    && |s.cells| >= 1
    && IsWindow(s.cells, s.first, s.last, Log(loaded, s))
    && (s.writer.Writing? ==> s.readers == map[] && s.writer.done <= |s.writer.batch|)
    && ReadersInv(s.first, |s.cells|, Held(loaded, s), s.readers)
  }

  // ---------------------------------------------------------------- every step keeps the invariant

  lemma LogOfWriteOne(loaded: seq<Event>, s: State)
    requires Enabled(s, WriteOne)
    ensures Log(loaded, Next(s, WriteOne)) == Log(loaded, s) + [s.writer.batch[s.writer.done]]
  {
    var batch, i := s.writer.batch, s.writer.done;
    var before := loaded + Concat(s.batches);
    assert batch[..i + 1] == batch[..i] + [batch[i]];
    assert before + (batch[..i] + [batch[i]]) == (before + batch[..i]) + [batch[i]];
  }

  lemma WriteOneKeeps(loaded: seq<Event>, s: State, s': State)
    requires Inv(loaded, s) && Enabled(s, WriteOne) && s' == Next(s, WriteOne)
    ensures Inv(loaded, s')
  {
    LogOfWriteOne(loaded, s);
    AfterPut(s.cells, s.first, s.last, Log(loaded, s), s.writer.batch[s.writer.done]);
  }

  lemma LogOfWriteLock(loaded: seq<Event>, s: State, a: Action)
    requires Enabled(s, a) && (a.WriteLock? || a.WriteUnlock?)
    ensures Log(loaded, Next(s, a)) == Log(loaded, s)
  {
    if a.WriteUnlock? {
      var batch, before := s.writer.batch, Concat(s.batches);
      assert (s.batches + [batch])[..|s.batches|] == s.batches;
      assert batch[..s.writer.done] == batch;
      assert loaded + (before + batch) == (loaded + before) + batch;
    }
  }

  lemma WriteLockKeeps(loaded: seq<Event>, s: State, a: Action, s': State)
    requires Inv(loaded, s) && Enabled(s, a) && (a.WriteLock? || a.WriteUnlock?) && s' == Next(s, a)
    ensures Inv(loaded, s')
  {
    LogOfWriteLock(loaded, s, a);
    assert IsWindow(s'.cells, s'.first, s'.last, Log(loaded, s));
  }

  // What a reader that is not at the end finds, and where it is afterwards.
  lemma ReaderMoves(cells: seq<Option<Event>>, first: nat, last: nat, held: seq<Event>, x: Reader, k: nat)
    requires first < |cells| && |held| < |cells| && Holds(cells, first, held) && last == At(first, |held|, |cells|)
    requires HasRead(first, |cells|, held, x, k) && x.current != last
    ensures x.current < |cells| && k < |held| && cells[x.current] == Some(held[k])
    ensures HasRead(first, |cells|, held, Reader(Wrap(x.current + 1, |cells|), x.history + [held[k]]), k + 1)
  {
    assert cells[At(first, k, |cells|)] == Some(held[k]);
    TakeOneMore(held, k, x.history);
  }

  lemma ReaderIsDone(first: nat, n: nat, held: seq<Event>, x: Reader, k: nat)
    requires first < n && |held| < n && HasRead(first, n, held, x, k) && x.current == At(first, |held|, n)
    ensures x.history == held
  {
    assert k == |held|;
  }

  lemma OthersStay(first: nat, n: nat, held: seq<Event>, readers: map<ReaderId, Reader>, r: ReaderId, x: Reader)
    requires ReadersInv(first, n, held, readers) && ReaderInv(first, n, held, x)
    ensures ReadersInv(first, n, held, readers[r := x])
  {
  }

  lemma ReadOneReader(loaded: seq<Event>, s: State, r: ReaderId, x': Reader)
    requires Inv(loaded, s) && Enabled(s, ReadOne(r)) && x' == Next(s, ReadOne(r)).readers[r]
    ensures s.cells[s.readers[r].current].Some? && x'.current < |s.cells|
    ensures ReaderInv(s.first, |s.cells|, Held(loaded, s), x')
  {
    var held := Held(loaded, s);
    assert ReaderInv(s.first, |s.cells|, held, s.readers[r]);
    var k: nat :| HasRead(s.first, |s.cells|, held, s.readers[r], k);
    ReaderMoves(s.cells, s.first, s.last, held, s.readers[r], k);
    assert HasRead(s.first, |s.cells|, held, x', k + 1);
  }

  lemma ReadOneKeeps(loaded: seq<Event>, s: State, r: ReaderId, s': State)
    requires Inv(loaded, s) && Enabled(s, ReadOne(r)) && s' == Next(s, ReadOne(r))
    ensures s.cells[s.readers[r].current].Some? && Inv(loaded, s')
  {
    ReadOneReader(loaded, s, r, s'.readers[r]);
    assert Log(loaded, s') == Log(loaded, s);
    OthersStay(s.first, |s.cells|, Held(loaded, s), s.readers, r, s'.readers[r]);
  }

  lemma ReadLockKeeps(loaded: seq<Event>, s: State, a: Action)
    requires Inv(loaded, s) && Enabled(s, a) && (a.ReadLock? || a.ReadUnlock?)
    ensures Inv(loaded, Next(s, a))
  {
    var s' := Next(s, a);
    assert Log(loaded, s') == Log(loaded, s);
    if a.ReadLock? { assert HasRead(s.first, |s.cells|, Held(loaded, s), s'.readers[a.r], 0); }
  }

  // A reader that leaves its loop has the most recent events of complete batches, whole and in order.
  lemma ReaderGetsWholeBatches(loaded: seq<Event>, s: State, r: ReaderId)
    requires Inv(loaded, s) && Enabled(s, ReadUnlock(r))
    ensures s.readers[r].history == Last(loaded + Concat(s.batches), |s.cells| - 1)
  {
    assert ReaderInv(s.first, |s.cells|, Held(loaded, s), s.readers[r]);
    var k: nat :| HasRead(s.first, |s.cells|, Held(loaded, s), s.readers[r], k);
    ReaderIsDone(s.first, |s.cells|, Held(loaded, s), s.readers[r], k);
    assert Log(loaded, s) == loaded + Concat(s.batches);
  }

  // ---------------------------------------------------------------- runs

  function Run(start: State, acts: seq<Action>): Option<State> {
    if acts == [] then Some(start)
    else
      var before := Run(start, acts[..|acts| - 1]);
      var a := acts[|acts| - 1];
      if before.Some? && Enabled(before.value, a) then Some(Next(before.value, a)) else None
  }

  // A hub as NewHub leaves it: the loaded events are in the ring and nobody holds the lock.
  ghost predicate IsStart(loaded: seq<Event>, s: State) {
    && |s.cells| >= 1 && IsWindow(s.cells, s.first, s.last, loaded)
    && s.writer == Unlocked && s.readers == map[] && s.batches == []
  }

  lemma {:induction false} RunsKeepInv(loaded: seq<Event>, start: State, acts: seq<Action>)
    requires IsStart(loaded, start) && Run(start, acts).Some?
    ensures Inv(loaded, Run(start, acts).value) && |Run(start, acts).value.cells| == |start.cells|
  {
    if acts == [] {
      assert Log(loaded, start) == loaded;
    } else {
      var front, a := acts[..|acts| - 1], acts[|acts| - 1];
      RunsKeepInv(loaded, start, front);
      var s := Run(start, front).value;
      match a {
        case WriteOne => WriteOneKeeps(loaded, s, Next(s, a));
        case WriteLock(_) => WriteLockKeeps(loaded, s, a, Next(s, a));
        case WriteUnlock => WriteLockKeeps(loaded, s, a, Next(s, a));
        case ReadOne(r) => ReadOneKeeps(loaded, s, r, Next(s, ReadOne(r)));
        case ReadLock(_) => ReadLockKeeps(loaded, s, a);
        case ReadUnlock(_) => ReadLockKeeps(loaded, s, a);
      }
    }
  }

  // The batches that the writer has taken the lock for, in order.
  function Written(acts: seq<Action>): seq<seq<Event>> {
    if acts == [] then []
    else Written(acts[..|acts| - 1]) + if acts[|acts| - 1].WriteLock? then [acts[|acts| - 1].batch] else []
  }

  // Every batch that the writer has taken the lock for is stored completely, or is being stored now.
  lemma {:induction false} EveryBatchIsStored(loaded: seq<Event>, start: State, acts: seq<Action>)
    requires IsStart(loaded, start) && Run(start, acts).Some?
    ensures
      var s := Run(start, acts).value;
      Written(acts) == s.batches + if s.writer.Writing? then [s.writer.batch] else []
  {
    if acts != [] {
      var front, a := acts[..|acts| - 1], acts[|acts| - 1];
      EveryBatchIsStored(loaded, start, front);
      match a {
        case WriteLock(_) => case WriteOne => case WriteUnlock =>
        case ReadLock(_) => case ReadOne(_) => case ReadUnlock(_) =>
      }
    }
  }

  // In every run, each GetHistory returns the last N-1 events of the loaded events and the complete batches before it,
  // and no step of it finds an unset node.
  lemma HistoryIsWhole(loaded: seq<Event>, start: State, acts: seq<Action>, r: ReaderId)
    requires IsStart(loaded, start) && Run(start, acts).Some?
    ensures
      var s := Run(start, acts).value;
      && (Enabled(s, ReadUnlock(r)) ==> s.readers[r].history == Last(loaded + Concat(s.batches), |start.cells| - 1))
      && (Enabled(s, ReadOne(r)) ==> s.cells[s.readers[r].current].Some?)
  {
    var s := Run(start, acts).value;
    RunsKeepInv(loaded, start, acts);
    if Enabled(s, ReadUnlock(r)) { ReaderGetsWholeBatches(loaded, s, r); }
    if Enabled(s, ReadOne(r)) { ReadOneKeeps(loaded, s, r, Next(s, ReadOne(r))); }
  }

}
