/** The broker connection as an object: the retry loop and the loop over the volume ladder, on a
    growing record of orders sent, sleeps and counted return codes. */
module OrderClass {
  import opened Prelude
  import opened OrderSend

  function Code(retcode: Option<int>): int {
    if retcode.None? then -1 else retcode.value
  }

  function CountOf(counts: map<int, nat>, c: int): nat {
    if c in counts then counts[c] else 0
  }

  function Counted(counts: map<int, nat>, retcode: Option<int>): map<int, nat> {
    counts[Code(retcode) := CountOf(counts, Code(retcode)) + 1]
  }

  /** The retcode counter after these sends. */
  function Tally(counts: map<int, nat>, log: seq<Sent>): map<int, nat>
    decreases |log|
  {
    if log == [] then counts else Tally(Counted(counts, log[0].answer.retcode), log[1..])
  }

  function Occurrences(log: seq<Sent>, c: int): nat {
    if log == [] then 0 else (if Code(log[0].answer.retcode) == c then 1 else 0) + Occurrences(log[1..], c)
  }

  /** Every attempt is counted once, under its own code. */
  lemma {:induction false} TallyExact(counts: map<int, nat>, log: seq<Sent>, c: int)
    ensures CountOf(Tally(counts, log), c) == CountOf(counts, c) + Occurrences(log, c)
    decreases |log|
  {
    if log != [] {
      TallyExact(Counted(counts, log[0].answer.retcode), log[1..], c);
    }
  }

  /** What the broker object and its surroundings have accumulated. */
  datatype History = History(log: seq<Sent>, sleeps: seq<real>, book: seq<Position>, counts: map<int, nat>)

  function Record(h: History, s: Sent): History {
    h.(log := h.log + [s], book := AddFill(h.book, s.answer), counts := Counted(h.counts, s.answer.retcode))
  }

  function Nap(h: History, nap: seq<real>): History {
    h.(sleeps := h.sleeps + nap)
  }

  /** The history after everything in `t`. */
  function After(h: History, t: Trace): History {
    History(h.log + t.log, h.sleeps + t.sleeps, t.book, Tally(h.counts, t.log))
  }

  /** The send loop on a growing history, as the object runs it. */
  function SendFrom(c: Call, k: nat, l: Loop, h: History): (Outcome, History)
    decreases Budget(c.pol) - l.attempt
  {
    var answer := c.world.answers(k);
    var h' := Record(h, Sent(l.request, answer));
    var verdict := Verdict(c, k, l, h'.book);
    if verdict.Some? then (verdict.value, h')
    else SendFrom(c, k + 1, Advance(c, k, l), Nap(h', SleepBefore(c.pol, l, Classify(answer.retcode))))
  }

  lemma AfterOne(h: History, s: Sent, outcome: Outcome)
    ensures After(h, Trace(outcome, [s], [], AddFill(h.book, s.answer))) == Record(h, s)
  {
    assert h.sleeps + [] == h.sleeps;
    assert [s][1..] == [];
    assert Tally(h.counts, [s]) == Tally(Counted(h.counts, s.answer.retcode), []);
  }

  lemma AfterPrefixed(h: History, s: Sent, nap: seq<real>, t: Trace)
    ensures After(h, Prefixed(s, nap, t)) == After(Nap(Record(h, s), nap), t)
  {
    assert ([s] + t.log)[1..] == t.log;
    assert h.log + ([s] + t.log) == h.log + [s] + t.log;
    assert h.sleeps + (nap + t.sleeps) == h.sleeps + nap + t.sleeps;
  }

  /** The loop on a growing history adds exactly its trace to it. */
  lemma {:induction false} SendFromIsSend(c: Call, k: nat, l: Loop, h: History)
    ensures var t := Send(c, k, l, h.book);
            SendFrom(c, k, l, h) == (t.outcome, After(h, t))
    decreases Budget(c.pol) - l.attempt
  {
    var s := Sent(l.request, c.world.answers(k));
    var h' := Record(h, s);
    if Verdict(c, k, l, h'.book).Some? {
      AfterOne(h, s, Verdict(c, k, l, h'.book).value);
    } else {
      var nap := SleepBefore(c.pol, l, Classify(s.answer.retcode));
      SendFromIsSend(c, k + 1, Advance(c, k, l), Nap(h', nap));
      AfterPrefixed(h, s, nap, Send(c, k + 1, Advance(c, k, l), h'.book));
    }
  }

  ghost predicate Describes(rung: Attempt, e: Entry) {
    forall k: nat, volume, book {:trigger e.Rung(k, volume, book)} ::
      rung(k, volume, book) == e.Rung(k, volume, book)
  }

  /** The ladder on a growing history. */
  function ClimbFrom(rung: Attempt, smaller: Outcome -> bool, k: nat, ladder: seq<real>, h: History): (Outcome, History)
    requires ladder != []
    decreases |ladder|
  {
    var t := rung(k, ladder[0], h.book);
    if |ladder| == 1 || !smaller(t.outcome) then (t.outcome, After(h, t))
    else ClimbFrom(rung, smaller, k + |t.log|, ladder[1..], After(h, t))
  }

  lemma ClimbOn(rung: Attempt, smaller: Outcome -> bool, k: nat, ladder: seq<real>, i: nat, h: History, t: Trace)
    requires i + 1 < |ladder| && t == rung(k, ladder[i], h.book) && smaller(t.outcome)
    ensures ClimbFrom(rung, smaller, k, ladder[i..], h) ==
            ClimbFrom(rung, smaller, k + |t.log|, ladder[i + 1..], After(h, t))
  {
    assert ladder[i..][1..] == ladder[i + 1..];
  }

  lemma ClimbEnds(rung: Attempt, smaller: Outcome -> bool, k: nat, ladder: seq<real>, i: nat, h: History, t: Trace)
    requires i < |ladder| && t == rung(k, ladder[i], h.book) && (i + 1 == |ladder| || !smaller(t.outcome))
    ensures ClimbFrom(rung, smaller, k, ladder[i..], h) == (t.outcome, After(h, t))
  {
  }

  lemma {:induction false} TallyConcat(counts: map<int, nat>, a: seq<Sent>, b: seq<Sent>)
    ensures Tally(counts, a + b) == Tally(Tally(counts, a), b)
    decreases |a|
  {
    if a == [] {
      assert a + b == b;
    } else {
      assert (a + b)[1..] == a[1..] + b;
      TallyConcat(Counted(counts, a[0].answer.retcode), a[1..], b);
    }
  }

  lemma AfterJoined(h: History, t: Trace, u: Trace)
    ensures After(h, Joined(t, u)) == After(After(h, t), u)
  {
    TallyConcat(h.counts, t.log, u.log);
    assert h.log + (t.log + u.log) == h.log + t.log + u.log;
    assert h.sleeps + (t.sleeps + u.sleeps) == h.sleeps + t.sleeps + u.sleeps;
  }

  lemma {:induction false} ClimbFromIsClimb(rung: Attempt, smaller: Outcome -> bool, k: nat, ladder: seq<real>,
                                            h: History)
    requires ladder != []
    ensures var t := Climb(rung, smaller, k, ladder, h.book);
            ClimbFrom(rung, smaller, k, ladder, h) == (t.outcome, After(h, t))
    decreases |ladder|
  {
    var t := rung(k, ladder[0], h.book);
    if |ladder| > 1 && smaller(t.outcome) {
      ClimbFromIsClimb(rung, smaller, k + |t.log|, ladder[1..], After(h, t));
      AfterJoined(h, t, Climb(rung, smaller, k + |t.log|, ladder[1..], t.book));
    }
  }

  class Mt5Broker {
    const pol: RetryPolicy
    const defaultQty: real
    const serverTp: bool
    var retcodeCounts: map<int, nat>
    // the outside: the server's list of our positions, the orders sent, the sleeps
    var book: seq<Position>
    var log: seq<Sent>
    var sleeps: seq<real>

    function Model(): History
      reads this`log, this`sleeps, this`book, this`retcodeCounts
    {
      History(log, sleeps, book, retcodeCounts)
    }

    constructor (pol: RetryPolicy, defaultQty: real, serverTp: bool, book: seq<Position>)
      ensures this.pol == pol && this.defaultQty == defaultQty && this.serverTp == serverTp
      ensures this.book == book && retcodeCounts == map[] && log == [] && sleeps == []
    {
      this.pol, this.defaultQty, this.serverTp := pol, defaultQty, serverTp;
      this.book, retcodeCounts, log, sleeps := book, map[], [], [];
    }

    /** `order_send`, counted. */
    method OrderSend(request: Request, answer: Answer)
      modifies this`book, this`log, this`retcodeCounts
      ensures Model() == Record(old(Model()), Sent(request, answer))
    {
      book := AddFill(book, answer);
      log := log + [Sent(request, answer)];
      var c := Code(answer.retcode);
      retcodeCounts := retcodeCounts[c := (if c in retcodeCounts then retcodeCounts[c] else 0) + 1];
    }

    method RecoveredEntry(before: set<int>) returns (ticket: Option<int>)
      ensures ticket == Recovered(book, before)
    {
      var i := 0;
      while i < |book|
        invariant 0 <= i <= |book|
        invariant Recovered(book, before) == Recovered(book[i..], before)
      {
        if book[i].ticket !in before {
          return Some(book[i].ticket);
        }
        i := i + 1;
      }
      return None;
    }

    /** The part of the loop after a send that decides whether to return, raise or go on. */
    method Judge(ghost c: Call, guard: bool, before: set<int>, k: nat, l: Loop, answer: Answer)
      returns (verdict: Option<Outcome>)
      requires c.pol == pol && c.guard == guard && c.before == before && c.world.answers(k) == answer
      ensures verdict == Verdict(c, k, l, book)
    {
      var action := Classify(answer.retcode);
      if action.Success? || action.SuccessPartial? {
        return Some(Returned(None));
      }
      if action.Ambiguous? && guard {
        var recovered := RecoveredEntry(before);
        if recovered.Some? {
          return Some(Returned(recovered));
        }
      }
      if action.DeferLadder? || action.AbortAlert? || action.Abort? {
        return Some(Raised(answer.retcode, k));
      }
      if action.RotateFilling? && l.rotated {
        return Some(Raised(answer.retcode, k));
      }
      if l.attempt >= pol.maxRetries {
        return Some(Raised(answer.retcode, k));
      }
      return None;
    }

    /** The part of the loop that prepares the next attempt and sleeps. */
    method Prepare(c: Call, k: nat, l: Loop) returns (next: Loop)
      requires c.pol == pol
      modifies this`sleeps
      ensures next == Advance(c, k, l)
      ensures Model() == Nap(old(Model()), SleepBefore(pol, l, Classify(c.world.answers(k).retcode)))
    {
      var action := Classify(c.world.answers(k).retcode);
      next := l;
      var delay := 0.0;
      if action.RotateFilling? {
        next := next.(request := l.request.(filling := Swap(l.request.filling)), rotated := true);
      } else if action.RetryFreshPrice? {
        next := next.(request := Refreshed(c.quote, l.request, c.world.ticks(k)));
      } else {
        delay := NextDelay(pol, l.delaysTaken);
        next := next.(delaysTaken := l.delaysTaken + 1);
      }
      if delay > 0.0 {
        sleeps := sleeps + [delay];
      }
      next := next.(attempt := next.attempt + 1);
    }

    /** The retcode-policy loop, the first send being number `k` of the world. */
    method SendLoop(c: Call, request: Request, k: nat) returns (outcome: Outcome)
      requires c.pol == pol
      modifies this`log, this`sleeps, this`book, this`retcodeCounts
      ensures (outcome, Model()) == SendFrom(c, k, Start(request), old(Model()))
    {
      var l, i := Start(request), k;
      while true
        invariant l.attempt <= Budget(pol)
        invariant SendFrom(c, i, l, Model()) == SendFrom(c, k, Start(request), old(Model()))
        decreases Budget(pol) - l.attempt
      {
        OrderSend(l.request, c.world.answers(i));
        var verdict := Judge(c, c.guard, c.before, i, l, c.world.answers(i));
        if verdict.Some? {
          return verdict.value;
        }
        l := Prepare(c, i, l);
        i := i + 1;
      }
    }

    /** `_send_with_policy`. */
    method SendPolicy(request: Request, quote: Option<Quote>, guard: bool, world: World, k: nat)
      returns (outcome: Outcome)
      modifies this`log, this`sleeps, this`book, this`retcodeCounts
      ensures var t := SendWithPolicy(pol, guard, quote, world, k, request, old(book));
              outcome == t.outcome && Model() == After(old(Model()), t)
    {
      var before := if guard then set i | 0 <= i < |book| :: book[i].ticket else {};
      var c := Call(pol, guard, quote, world, before);
      SendFromIsSend(c, k, Start(request), Model());
      outcome := SendLoop(c, request, k);
    }

    /** One rung; `rung` describes how rungs are sent. */
    method SendRung(e: Entry, ghost rung: Attempt, k: nat, volume: real) returns (outcome: Outcome)
      requires e.pol == pol && Describes(rung, e)
      modifies this`log, this`sleeps, this`book, this`retcodeCounts
      ensures var t := rung(k, volume, old(book));
              outcome == t.outcome && Model() == After(old(Model()), t)
    {
      assert rung(k, volume, book) == e.Rung(k, volume, book);
      outcome := SendPolicy(FirstRequest(e.quote, volume, e.px, e.filling), Some(e.quote), true, e.world, k);
    }

    /** The loop over the ladder. */
    method TryLadder(e: Entry, ghost rung: Attempt, ladder: seq<real>) returns (outcome: Outcome)
      requires ladder != [] && e.pol == pol && Describes(rung, e)
      modifies this`log, this`sleeps, this`book, this`retcodeCounts
      ensures (outcome, Model()) == ClimbFrom(rung, e.Smaller(), 0, ladder, old(Model()))
    {
      ghost var smaller := e.Smaller();
      var k: nat, i := 0, 0;
      while true
        invariant 0 <= i < |ladder|
        invariant ClimbFrom(rung, smaller, k, ladder[i..], Model()) == ClimbFrom(rung, smaller, 0, ladder, old(Model()))
        decreases |ladder| - i
      {
        var sends := |log|;
        ghost var h, t := Model(), rung(k, ladder[i], book);
        outcome := SendRung(e, rung, k, ladder[i]);
        if outcome.Returned? || !TriesSmaller(e.world, outcome) || i + 1 == |ladder| {
          ClimbEnds(rung, smaller, k, ladder, i, h, t);
          return;
        }
        ClimbOn(rung, smaller, k, ladder, i, h, t);
        k := k + (|log| - sends);
        i := i + 1;
      }
    }

    /** `_open` in market mode. */
    method OpenMarket(sig: Signal, world: World, px: real, filling: Filling) returns (outcome: Outcome)
      modifies this`log, this`sleeps, this`book, this`retcodeCounts
      ensures var t := Open(pol, sig, serverTp, defaultQty, world, px, filling, old(book));
              outcome == t.outcome && Model() == After(old(Model()), t)
    {
      var want := if Truthy(sig.qty) then sig.qty.value else defaultQty;
      var e, ladder := Entry(pol, QuoteOf(sig, serverTp), world, px, filling), Ladder(want);
      ClimbFromIsClimb(e.Rungs(), e.Smaller(), 0, ladder, Model());
      outcome := TryLadder(e, e.Rungs(), ladder);
    }
  }
}
