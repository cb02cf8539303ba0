/** The leader's append-only event store and the example follower that polls it.

    A stored line is a record: the sequence number the store assigned and the event it holds.
    Lines are taken to be whole and reads to succeed. */
module Leader {

  datatype Record = Record(seqNo: int, event: nat)

  /** `LeaderStore`: the counter in memory and the file. */
  datatype Store = Store(last: nat, file: seq<Record>)

  predicate Ascending(file: seq<Record>) {
    forall i, j :: 0 <= i < j < |file| ==> file[i].seqNo < file[j].seqNo
  }

  predicate StoreInv(s: Store) {
    && Ascending(s.file)
    && forall i :: 0 <= i < |s.file| ==> 0 < s.file[i].seqNo <= s.last
  }

  /** The largest sequence number in the file, 0 if there is none. */
  function LoadLastSeq(file: seq<Record>): (last: nat)
    ensures forall i :: 0 <= i < |file| ==> file[i].seqNo <= last
    ensures last == 0 || exists i :: 0 <= i < |file| && file[i].seqNo == last
  {
    if file == [] then 0
    else
      var most := LoadLastSeq(file[..|file| - 1]);
      var seqNo := file[|file| - 1].seqNo;
      if seqNo > most then seqNo else most
  }

  function Append(s: Store, event: nat): Store {
    Store(s.last + 1, s.file + [Record(s.last + 1, event)])
  }

  /** The write fails after the counter has moved. */
  function AppendError(s: Store): Store {
    s.(last := s.last + 1)
  }

  /** A new process on the same file. */
  function Reopen(s: Store): Store {
    Store(LoadLastSeq(s.file), s.file)
  }

  /** `lines[-k:]`, for `k` not negative: with `k == 0` the bound is `-0`, so all of it. */
  function LastLines(file: seq<Record>, k: nat): seq<Record> {
    if k == 0 || k >= |file| then file else file[|file| - k..]
  }

  function Latest(s: Store, n: int): seq<Record> {
    LastLines(s.file, if n > 0 then n else 0)
  }

  /** `latest(n)` is the last min(n, length) records exactly when n is positive or nothing is
      stored: asked for none, it returns everything. */
  lemma LatestIsLast(s: Store, n: nat)
    ensures Latest(s, n) == s.file[if n >= |s.file| then 0 else |s.file| - n..] <==> n > 0 || s.file == []
  {
    if n == 0 && s.file != [] {
      assert |Latest(s, 0)| != |s.file[|s.file|..]|;
    }
  }

  // ------------------------------------------------------------------ the follower

  datatype Follower = Follower(lastSeq: int, printed: seq<Record>)

  /** What one poll does with the events it was given. */
  function Consume(f: Follower, events: seq<Record>): Follower
    decreases |events|
  {
    if events == [] then f
    else
      var g := Consume(f, events[..|events| - 1]);
      var ev := events[|events| - 1];
      if ev.seqNo > g.lastSeq then Follower(ev.seqNo, g.printed + [ev]) else g
  }

  /** The records a follower at `lastSeq` has not reached: the file from this index on. */
  function Unseen(file: seq<Record>, lastSeq: int): (k: nat)
    ensures k <= |file|
    ensures Ascending(file) ==> forall i :: 0 <= i < |file| ==> (file[i].seqNo > lastSeq <==> k <= i)
  {
    if file == [] then 0
    else
      var most := file[..|file| - 1];
      var k := Unseen(most, lastSeq);
      if file[|file| - 1].seqNo > lastSeq then k else |file|
  }

  predicate FollowerInv(f: Follower, s: Store) {
    && Ascending(f.printed)
    && (forall i :: 0 <= i < |f.printed| ==> f.printed[i] in s.file && f.printed[i].seqNo <= f.lastSeq)
    && 0 <= f.lastSeq <= s.last
    && (f.lastSeq == 0 || exists i :: 0 <= i < |s.file| && s.file[i].seqNo == f.lastSeq)
  }

  lemma {:induction false} ConsumeConcat(f: Follower, xs: seq<Record>, ys: seq<Record>)
    ensures Consume(f, xs + ys) == Consume(Consume(f, xs), ys)
    decreases |ys|
  {
    if ys == [] {
      assert xs + ys == xs;
    } else {
      var most := ys[..|ys| - 1];
      assert (xs + ys)[..|xs + ys| - 1] == xs + most;
      ConsumeConcat(f, xs, most);
    }
  }

  /** Events already reached change nothing. */
  lemma {:induction false} ConsumeOld(f: Follower, events: seq<Record>)
    requires forall i :: 0 <= i < |events| ==> events[i].seqNo <= f.lastSeq
    ensures Consume(f, events) == f
    decreases |events|
  {
    if events != [] {
      ConsumeOld(f, events[..|events| - 1]);
    }
  }

  /** Fresh events in order are all printed. */
  lemma {:induction false} ConsumeFresh(f: Follower, events: seq<Record>)
    requires Ascending(events)
    requires events != [] ==> events[0].seqNo > f.lastSeq
    ensures Consume(f, events) ==
            Follower(if events == [] then f.lastSeq else events[|events| - 1].seqNo, f.printed + events)
    decreases |events|
  {
    if events == [] {
      assert f.printed + events == f.printed;
    } else {
      var most, ev := events[..|events| - 1], events[|events| - 1];
      ConsumeFresh(f, most);
      assert events == most + [ev];
      assert f.printed + events == f.printed + most + [ev];
    }
  }

  /** A poll that is shown the file from `from` on, `first` being the first fresh record there. */
  lemma ConsumeSuffix(f: Follower, file: seq<Record>, from: nat, first: nat)
    requires Ascending(file) && from <= first <= |file|
    requires forall i :: from <= i < first ==> file[i].seqNo <= f.lastSeq
    requires first < |file| ==> file[first].seqNo > f.lastSeq
    ensures Consume(f, file[from..]) ==
            Follower(if first < |file| then file[|file| - 1].seqNo else f.lastSeq, f.printed + file[first..])
  {
    var xs, ys := file[from..first], file[first..];
    assert file[from..] == xs + ys;
    SliceAscends(file, first);
    ConsumeBoth(f, xs, ys);
  }

  lemma SliceAscends(file: seq<Record>, k: nat)
    requires Ascending(file) && k <= |file|
    ensures Ascending(file[k..])
  {
  }

  lemma ConsumeBoth(f: Follower, xs: seq<Record>, ys: seq<Record>)
    requires forall i :: 0 <= i < |xs| ==> xs[i].seqNo <= f.lastSeq
    requires Ascending(ys) && (ys != [] ==> ys[0].seqNo > f.lastSeq)
    ensures Consume(f, xs + ys) ==
            Follower(if ys == [] then f.lastSeq else ys[|ys| - 1].seqNo, f.printed + ys)
  {
    ConsumeConcat(f, xs, ys);
    ConsumeOld(f, xs);
    ConsumeFresh(f, ys);
  }

  /** Of the records it has not reached, a poll prints the last `n` (all of them when n is not
      positive). */
  function Shown(f: Follower, s: Store, n: int): (k: nat)
    ensures Unseen(s.file, f.lastSeq) <= k <= |s.file|
  {
    var start := Unseen(s.file, f.lastSeq);
    if n <= 0 || |s.file| - start <= n then start else |s.file| - n
  }

  lemma PollIsSuffix(f: Follower, s: Store, n: int)
    requires Ascending(s.file)
    ensures var shown := Shown(f, s, n);
            Consume(f, Latest(s, n)) ==
            Follower(if shown < |s.file| then s.file[|s.file| - 1].seqNo else f.lastSeq, f.printed + s.file[shown..])
  {
    var from := if n <= 0 || n >= |s.file| then 0 else |s.file| - n;
    assert Latest(s, n) == s.file[from..];
    ConsumeSuffix(f, s.file, from, Shown(f, s, n));
  }

  /** One poll prints exactly the records `Shown` says and leaves none unseen behind it, so it
      prints every unseen record exactly when n is not positive or at most n of them wait. */
  lemma PollPrints(f: Follower, s: Store, n: int)
    requires StoreInv(s) && FollowerInv(f, s)
    ensures var g := Consume(f, Latest(s, n));
            && g.printed == f.printed + s.file[Shown(f, s, n)..]
            && Unseen(s.file, g.lastSeq) == |s.file|
            && (g.printed == f.printed + s.file[Unseen(s.file, f.lastSeq)..]
                <==> n <= 0 || |s.file| - Unseen(s.file, f.lastSeq) <= n)
  {
    PollIsSuffix(f, s, n);
    var start, shown := Unseen(s.file, f.lastSeq), Shown(f, s, n);
    assert |f.printed + s.file[shown..]| == |f.printed| + |s.file| - shown;
    assert |f.printed + s.file[start..]| == |f.printed| + |s.file| - start;
    var g := Consume(f, Latest(s, n));
    assert shown == |s.file| ==> start == |s.file|;
    assert s.file != [] ==> s.file[|s.file| - 1].seqNo <= g.lastSeq;
  }

  lemma PollKeepsInv(f: Follower, s: Store, n: int)
    requires StoreInv(s) && FollowerInv(f, s)
    ensures FollowerInv(Consume(f, Latest(s, n)), s)
  {
    PollIsSuffix(f, s, n);
    PrintedRest(f, s, Shown(f, s, n));
  }

  lemma PrintedRest(f: Follower, s: Store, k: nat)
    requires StoreInv(s) && FollowerInv(f, s) && Unseen(s.file, f.lastSeq) <= k <= |s.file|
    ensures var last := if k < |s.file| then s.file[|s.file| - 1].seqNo else f.lastSeq;
            FollowerInv(Follower(last, f.printed + s.file[k..]), s)
  {
    var tail := s.file[k..];
    if tail == [] {
      assert f.printed + tail == f.printed;
    } else {
      forall i | 0 <= i < |tail|
        ensures tail[i] in s.file && f.lastSeq < tail[i].seqNo <= s.file[|s.file| - 1].seqNo
      {
        assert tail[i] == s.file[k + i];
      }
      TailAscends(f, tail);
    }
  }

  lemma TailAscends(f: Follower, tail: seq<Record>)
    requires Ascending(f.printed) && forall i :: 0 <= i < |f.printed| ==> f.printed[i].seqNo <= f.lastSeq
    requires Ascending(tail) && forall i :: 0 <= i < |tail| ==> f.lastSeq < tail[i].seqNo
    ensures Ascending(f.printed + tail)
  {
  }

  // ------------------------------------------------------------------ runs

  datatype Op = DoAppend(event: nat) | DoAppendError | DoReopen | DoPoll | DoPollError

  datatype System = System(store: Store, follower: Follower)

  const Empty := System(Store(0, []), Follower(0, []))

  function Step(s: System, n: int, op: Op): System {
    match op
    case DoAppend(event) => s.(store := Append(s.store, event))
    case DoAppendError => s.(store := AppendError(s.store))
    case DoReopen => s.(store := Reopen(s.store))
    case DoPoll => s.(follower := Consume(s.follower, Latest(s.store, n)))
    case DoPollError => s.(follower := Consume(s.follower, []))
  }

  function Run(n: int, ops: seq<Op>): System
    decreases |ops|
  {
    if ops == [] then Empty else Step(Run(n, ops[..|ops| - 1]), n, ops[|ops| - 1])
  }

  function Backlog(s: System): nat {
    |s.store.file| - Unseen(s.store.file, s.follower.lastSeq)
  }

  /** No poll of the run finds more than `n` records waiting. */
  predicate KeepsUp(n: int, ops: seq<Op>)
    decreases |ops|
  {
    ops != [] ==>
      var most := ops[..|ops| - 1];
      KeepsUp(n, most) && (ops[|ops| - 1].DoPoll? ==> n <= 0 || Backlog(Run(n, most)) <= n)
  }

  predicate SystemInv(s: System) {
    StoreInv(s.store) && FollowerInv(s.follower, s.store)
  }

  lemma AppendUnseen(file: seq<Record>, r: Record, lastSeq: int)
    requires r.seqNo > lastSeq
    ensures Unseen(file + [r], lastSeq) == Unseen(file, lastSeq)
  {
    assert (file + [r])[..|file|] == file;
  }

  lemma StepKeepsInv(s: System, n: int, op: Op)
    requires SystemInv(s)
    ensures SystemInv(Step(s, n, op))
  {
    match op
    case DoAppend(event) =>
      var file' := Append(s.store, event).file;
      forall r | r in s.store.file ensures r in file' {}
      if i :| 0 <= i < |s.store.file| && s.store.file[i].seqNo == s.follower.lastSeq {
        assert file'[i].seqNo == s.follower.lastSeq;
      }
    case DoAppendError =>
    case DoReopen =>
    case DoPoll => PollKeepsInv(s.follower, s.store, n);
    case DoPollError =>
  }

  lemma {:induction false} RunInv(n: int, ops: seq<Op>)
    ensures SystemInv(Run(n, ops))
    decreases |ops|
  {
    if ops != [] {
      RunInv(n, ops[..|ops| - 1]);
      StepKeepsInv(Run(n, ops[..|ops| - 1]), n, ops[|ops| - 1]);
    }
  }

  /** How many appends have failed since the last one that did not or the last reopening. */
  function FailedSince(ops: seq<Op>): nat
    decreases |ops|
  {
    if ops == [] then 0
    else
      var most, op := ops[..|ops| - 1], ops[|ops| - 1];
      if op.DoAppend? || op.DoReopen? then 0 else FailedSince(most) + if op.DoAppendError? then 1 else 0
  }

  /** Over every run the number to be stored next is one more than the last stored, and one more for each append that
      has failed since then unless the store has been reopened. */
  lemma {:induction false} NumbersExact(n: int, ops: seq<Op>, event: nat)
    ensures var file := Run(n, ops).store.file;
            var last := if file == [] then 0 else file[|file| - 1].seqNo;
            Run(n, ops + [DoAppend(event)]).store.file == file + [Record(last + FailedSince(ops) + 1, event)]
  {
    assert (ops + [DoAppend(event)])[..|ops|] == ops;
    LastNumber(n, ops);
  }

  lemma {:induction false} LastNumber(n: int, ops: seq<Op>)
    ensures Ahead(Run(n, ops).store) == FailedSince(ops)
    decreases |ops|
  {
    if ops != [] {
      var most := ops[..|ops| - 1];
      LastNumber(n, most);
      RunInv(n, most);
      StepAhead(Run(n, most), n, ops[|ops| - 1]);
    }
  }

  /** How far the counter is ahead of the last stored number. */
  function Ahead(s: Store): int {
    s.last - if s.file == [] then 0 else s.file[|s.file| - 1].seqNo
  }

  lemma {:induction false} StepAhead(s: System, n: int, op: Op)
    requires SystemInv(s)
    ensures Ahead(Step(s, n, op).store) ==
            if op.DoAppend? || op.DoReopen? then 0
            else Ahead(s.store) + if op.DoAppendError? then 1 else 0
  {
    LoadsLast(s.store.file);
  }

  lemma {:induction false} LoadsLast(file: seq<Record>)
    requires Ascending(file) && forall i :: 0 <= i < |file| ==> file[i].seqNo > 0
    ensures LoadLastSeq(file) == if file == [] then 0 else file[|file| - 1].seqNo
  {
    if file != [] {
      var i :| 0 <= i < |file| && file[i].seqNo == LoadLastSeq(file);
    }
  }

  /** Over every run of appends, failed appends and reopenings the stored sequence numbers strictly
      increase, so none is ever reused, and the next append exceeds all of them; the follower prints
      stored records only, each at most once, in increasing order. */
  lemma SequenceNumbers(n: int, ops: seq<Op>, event: nat)
    ensures var s := Run(n, ops);
            && Ascending(s.store.file)
            && Ascending(Append(s.store, event).file)
            && Ascending(s.follower.printed)
            && forall r <- s.follower.printed :: r in s.store.file
  {
    RunInv(n, ops);
  }

  /** The file up to where the follower stands. */
  function Reached(s: System): seq<Record> {
    s.store.file[..Unseen(s.store.file, s.follower.lastSeq)]
  }

  lemma AppendCaughtUp(s: System, event: nat)
    requires SystemInv(s)
    ensures Reached(s.(store := Append(s.store, event))) == Reached(s)
  {
    var file, r := s.store.file, Record(s.store.last + 1, event);
    AppendUnseen(file, r, s.follower.lastSeq);
    assert (file + [r])[..Unseen(file, s.follower.lastSeq)] == Reached(s);
  }

  lemma PollTakesRest(f: Follower, s: Store, n: int)
    requires StoreInv(s) && FollowerInv(f, s) && f.printed == s.file[..Unseen(s.file, f.lastSeq)]
    requires n <= 0 || |s.file| - Unseen(s.file, f.lastSeq) <= n
    ensures var g := Consume(f, Latest(s, n)); g.printed == s.file && Unseen(s.file, g.lastSeq) == |s.file|
  {
    var k := Unseen(s.file, f.lastSeq);
    PollPrints(f, s, n);
    JoinedBack(s.file, k);
  }

  lemma JoinedBack(file: seq<Record>, k: nat)
    requires k <= |file|
    ensures file[..k] + file[k..] == file && file[..|file|] == file
  {
  }

  lemma PollCaughtUp(s: System, n: int)
    requires SystemInv(s) && s.follower.printed == Reached(s)
    requires n <= 0 || Backlog(s) <= n
    ensures var s' := Step(s, n, DoPoll);
            s'.follower.printed == s.store.file == Reached(s')
  {
    PollTakesRest(s.follower, s.store, n);
    JoinedBack(s.store.file, |s.store.file|);
  }

  lemma StepCaughtUp(s: System, n: int, op: Op)
    requires SystemInv(s) && s.follower.printed == Reached(s)
    requires op.DoPoll? ==> n <= 0 || Backlog(s) <= n
    ensures Step(s, n, op).follower.printed == Reached(Step(s, n, op))
  {
    if op.DoAppend? {
      AppendCaughtUp(s, op.event);
    } else if op.DoPoll? {
      PollCaughtUp(s, n);
    }
  }

  /** A follower that has always kept up has printed the file up to where it stands. */
  lemma {:induction false} CaughtUp(n: int, ops: seq<Op>)
    requires KeepsUp(n, ops)
    ensures Run(n, ops).follower.printed == Reached(Run(n, ops))
    decreases |ops|
  {
    if ops != [] {
      var most, op := ops[..|ops| - 1], ops[|ops| - 1];
      CaughtUp(n, most);
      RunInv(n, most);
      StepCaughtUp(Run(n, most), n, op);
    }
  }

  /** A follower misses nothing as long as at most `n` records wait at each poll, the first one
      included: right after a poll it has printed the whole file. */
  lemma NothingMissed(n: int, ops: seq<Op>)
    requires KeepsUp(n, ops) && ops != [] && ops[|ops| - 1] == DoPoll
    ensures var s := Run(n, ops);
            s.follower.printed == s.store.file
  {
    var most := ops[..|ops| - 1];
    CaughtUp(n, most);
    RunInv(n, most);
    PollCaughtUp(Run(n, most), n);
  }

  /** A record the follower has passed without printing it. */
  predicate Passed(s: System, r: Record) {
    r in s.store.file && r.seqNo <= s.follower.lastSeq && r !in s.follower.printed
  }

  lemma StepStaysPassed(s: System, n: int, op: Op, r: Record)
    requires SystemInv(s) && Passed(s, r)
    ensures Passed(Step(s, n, op), r)
  {
    if op.DoPoll? {
      PollPrints(s.follower, s.store, n);
    }
  }

  lemma {:induction false} StaysPassed(n: int, ops: seq<Op>, more: seq<Op>, r: Record)
    requires Passed(Run(n, ops), r)
    ensures Passed(Run(n, ops + more), r)
    decreases |more|
  {
    if more == [] {
      assert ops + more == ops;
    } else {
      var most := more[..|more| - 1];
      assert (ops + more)[..|ops + more| - 1] == ops + most;
      StaysPassed(n, ops, most, r);
      RunInv(n, ops + most);
      StepStaysPassed(Run(n, ops + most), n, more[|more| - 1], r);
    }
  }

  /** The records a poll jumps over, waiting but not among the last `n`, are passed. */
  lemma PollPasses(s: System, n: int, i: nat)
    requires SystemInv(s)
    requires Unseen(s.store.file, s.follower.lastSeq) <= i < Shown(s.follower, s.store, n)
    ensures Passed(Step(s, n, DoPoll), s.store.file[i])
  {
    PollPrints(s.follower, s.store, n);
    var file := s.store.file;
    var tail := file[Shown(s.follower, s.store, n)..];
    forall j | 0 <= j < |tail| ensures tail[j] != file[i] {
      assert tail[j] == file[Shown(s.follower, s.store, n) + j];
    }
  }

  /** A poll that finds more than `n` waiting loses the difference for good: whatever happens after
      it, in however many steps, no record it has jumped over is ever printed. */
  lemma MissedForever(n: int, ops: seq<Op>, more: seq<Op>, i: nat)
    requires var s := Run(n, ops); Unseen(s.store.file, s.follower.lastSeq) <= i < Shown(s.follower, s.store, n)
    ensures Run(n, ops).store.file[i] !in Run(n, ops + [DoPoll] + more).follower.printed
  {
    var s := Run(n, ops);
    RunInv(n, ops);
    PollPasses(s, n, i);
    assert (ops + [DoPoll])[..|ops|] == ops;
    StaysPassed(n, ops + [DoPoll], more, s.store.file[i]);
  }

  // ------------------------------------------------------------------ the code itself

  class LeaderStore {
    var seqNo: nat
    var file: seq<Record>

    function Model(): Store
      reads this
    {
      Store(seqNo, file)
    }

    /** Opens an existing file. */
    constructor (existing: seq<Record>)
      ensures Model() == Reopen(Store(0, existing))
    {
      file := existing;
      seqNo := 0;
      new;
      seqNo := Load();
    }

    /** `_load_last_seq`: one pass over the lines. */
    method Load() returns (last: nat)
      ensures last == LoadLastSeq(file)
    {
      last := 0;
      var i := 0;
      while i < |file|
        invariant 0 <= i <= |file|
        invariant last == LoadLastSeq(file[..i])
      {
        assert file[..i + 1][..i] == file[..i];
        if file[i].seqNo > last {
          last := file[i].seqNo;
        }
        i := i + 1;
      }
      assert file[..|file|] == file;
    }

    method AppendEvent(event: nat) returns (result: nat)
      modifies this
      ensures Model() == Append(old(Model()), event)
      ensures result == seqNo
    {
      seqNo := seqNo + 1;
      file := file + [Record(seqNo, event)];
      result := seqNo;
    }
  }

  class FollowerProcess {
    var lastSeq: int
    var printed: seq<Record>

    function Model(): Follower
      reads this
    {
      Follower(lastSeq, printed)
    }

    constructor ()
      ensures Model() == Empty.follower
    {
      lastSeq, printed := 0, [];
    }

    /** The body of the polling loop, for the events one poll returned. */
    method Poll(events: seq<Record>)
      modifies this
      ensures Model() == Consume(old(Model()), events)
    {
      var i := 0;
      while i < |events|
        invariant 0 <= i <= |events|
        invariant Model() == Consume(old(Model()), events[..i])
      {
        assert events[..i + 1][..i] == events[..i];
        if events[i].seqNo > lastSeq {
          lastSeq := events[i].seqNo;
          printed := printed + [events[i]];
        }
        i := i + 1;
      }
      assert events[..|events|] == events;
    }
  }
}
