/** What is sent after what: every send of a call and of the volume ladder, answer by answer, in terms of
    the return codes themselves. */
module OrderFlow {
  import opened Prelude
  import opened OrderSend

  const DONE := {10008, 10009, 10010}
  const REQUOTED := {10004, 10015, 10020}
  const BUSY := {10006, 10011, 10021, 10024, 10028}
  const UNSURE := {10012, 10031}
  const BAD_FILLING := 10030

  predicate IsDone(code: Option<int>) {
    code.Some? && code.value in DONE
  }

  /** The order may have been executed all the same. */
  predicate IsUnsure(code: Option<int>) {
    code.None? || code.value in UNSURE
  }

  predicate IsRequote(code: Option<int>) {
    code.Some? && code.value in REQUOTED
  }

  predicate IsBadFilling(code: Option<int>) {
    code == Some(BAD_FILLING)
  }

  /** A definite refusal, 10019 among them: nothing to be gained by sending the same again. */
  predicate IsRefusal(code: Option<int>) {
    && code.Some? && code.value !in DONE + REQUOTED + BUSY + UNSURE
    && code.value != BAD_FILLING
  }

  // ------------------------------------------------------------------ one call

  /** The same order at a fresh price, with the signal's distances. */
  predicate Repriced(q: Quote, req: Request, req': Request, px: real) {
    && req'.price == px && req'.volume == req.volume && req'.filling == req.filling
    && req'.sl == (if q.stopDist.None? then req.sl
                   else if q.short then px + q.stopDist.value else px - q.stopDist.value)
    && req'.tp == (if q.tpDist.None? then req.tp
                   else if q.short then px - q.tpDist.value else px + q.tpDist.value)
  }

  /** What follows a send that was not the last of its call: the same order, unless the price was off or
      the filling mode not supported. */
  predicate Resent(quote: Option<Quote>, tick: Option<real>, code: Option<int>, req: Request, req': Request) {
    if IsBadFilling(code) then
      && req' == req.(filling := req'.filling)
      && (req.filling == Ioc ==> req'.filling == Fok) && (req.filling == Fok ==> req'.filling == Ioc)
      && (req.filling == ReturnRest ==> req'.filling == ReturnRest)
    else if IsRequote(code) && quote.Some? && tick.Some? then Repriced(quote.value, req, req', tick.value)
    else !IsDone(code) && !IsRefusal(code) && req' == req
  }

  /** The server's positions after the first `n` sends. */
  function BookAfter(book: seq<Position>, log: seq<Sent>, n: nat): seq<Position>
    requires n <= |log|
  {
    if n == 0 then book
    else
      var a := log[n - 1].answer;
      BookAfter(book, log, n - 1) + if a.fill.Some? && a.visible then [a.fill.value] else []
  }

  predicate NoneNew(book: seq<Position>, before: set<int>) {
    forall i :: 0 <= i < |book| ==> book[i].ticket in before
  }

  /** Whether a filling mode had been refused among the first `n` sends. */
  predicate Rotated(log: seq<Sent>, n: nat)
    requires n <= |log|
  {
    exists j :: 0 <= j < n && IsBadFilling(log[j].answer.retcode)
  }

  /** Send number i of the call was worth another: not executed as far as can be told, not refused, the
      one rotation not used up, the budget not exhausted. */
  predicate WorthResending(c: Call, l: Loop, book: seq<Position>, log: seq<Sent>, i: nat)
    requires i < |log|
  {
    var code := log[i].answer.retcode;
    && !IsDone(code) && !IsRefusal(code)
    && (IsUnsure(code) && c.guard ==> NoneNew(BookAfter(book, log, i + 1), c.before))
    && (IsBadFilling(code) ==> !l.rotated && !Rotated(log, i))
    && l.attempt + i < c.pol.maxRetries
  }

  /** How a call ends: the last answer and nothing else decides. */
  predicate EndsWell(c: Call, k: nat, l: Loop, book: seq<Position>, log: seq<Sent>, outcome: Outcome)
    requires log != []
  {
    var n := |log| - 1;
    var code, after := log[n].answer.retcode, BookAfter(book, log, n + 1);
    if IsDone(code) then outcome == Returned(None)
    else if IsUnsure(code) && c.guard && !NoneNew(after, c.before) then
      && outcome.Returned? && outcome.ticket.Some? && outcome.ticket.value !in c.before
      && exists i :: 0 <= i < |after| && after[i].ticket == outcome.ticket.value
    else outcome == Raised(code, k + n)
  }

  /** The whole of one call. */
  predicate CallGoes(c: Call, k: nat, l: Loop, book: seq<Position>, t: Trace) {
    var log := t.log;
    && log != [] && log[0].request == l.request
    && (forall i :: 0 <= i < |log| ==> log[i].answer == c.world.answers(k + i))
    && (forall i :: 0 <= i < |log| ==> (WorthResending(c, l, book, log, i) <==> i < |log| - 1))
    && (forall i :: 0 <= i < |log| - 1 ==>
          Resent(c.quote, c.world.ticks(k + i), log[i].answer.retcode, log[i].request, log[i + 1].request))
    && EndsWell(c, k, l, book, log, t.outcome)
    && t.book == BookAfter(book, log, |log|)
  }

  lemma ClassifyMeans(code: Option<int>)
    ensures Succeeds(Classify(code)) <==> IsDone(code)
    ensures Classify(code).Ambiguous? <==> IsUnsure(code)
    ensures Hopeless(Classify(code)) <==> IsRefusal(code)
    ensures Classify(code).RotateFilling? <==> IsBadFilling(code)
    ensures Classify(code).RetryFreshPrice? <==> IsRequote(code)
  {
  }

  lemma {:induction false} BookAfterShift(book: seq<Position>, s: Sent, rest: seq<Sent>, n: nat)
    requires n <= |rest|
    ensures BookAfter(book, [s] + rest, n + 1) == BookAfter(AddFill(book, s.answer), rest, n)
    decreases n
  {
    if n > 0 {
      BookAfterShift(book, s, rest, n - 1);
      assert ([s] + rest)[n] == rest[n - 1];
    } else {
      assert book + [] == book;
    }
  }

  lemma RecoveredMeans(book: seq<Position>, before: set<int>)
    ensures Recovered(book, before).None? <==> NoneNew(book, before)
  {
    if NoneNew(book, before) {
      RecoveredNothing(book, before);
    }
  }

  lemma {:induction false} VerdictMeans(c: Call, k: nat, l: Loop, book: seq<Position>, log: seq<Sent>)
    requires log != [] && log[0].answer == c.world.answers(k)
    ensures Verdict(c, k, l, AddFill(book, log[0].answer)).None? <==> WorthResending(c, l, book, log, 0)
    ensures AddFill(book, log[0].answer) == BookAfter(book, log, 1)
  {
    ClassifyMeans(log[0].answer.retcode);
    var after := AddFill(book, log[0].answer);
    assert BookAfter(book, log, 0) == book;
    assert book + [] == book;
    RecoveredMeans(after, c.before);
  }

  lemma {:induction false} LastSend(c: Call, k: nat, l: Loop, book: seq<Position>)
    requires Verdict(c, k, l, AddFill(book, c.world.answers(k))).Some?
    ensures CallGoes(c, k, l, book, Send(c, k, l, book))
  {
    var log := Send(c, k, l, book).log;
    VerdictMeans(c, k, l, book, log);
    ClassifyMeans(log[0].answer.retcode);
    RecoveredMeans(AddFill(book, log[0].answer), c.before);
  }

  lemma AdvanceMeans(c: Call, k: nat, l: Loop)
    requires var code := c.world.answers(k).retcode; !IsDone(code) && !IsRefusal(code)
    ensures var code := c.world.answers(k).retcode;
            && Resent(c.quote, c.world.ticks(k), code, l.request, Advance(c, k, l).request)
            && Advance(c, k, l).attempt == l.attempt + 1
            && (Advance(c, k, l).rotated <==> l.rotated || IsBadFilling(code))
  {
    ClassifyMeans(c.world.answers(k).retcode);
  }

  lemma {:induction false} RotatedShift(s: Sent, rest: seq<Sent>, n: nat)
    requires n <= |rest|
    ensures Rotated([s] + rest, n + 1) <==> IsBadFilling(s.answer.retcode) || Rotated(rest, n)
  {
    var log := [s] + rest;
    if IsBadFilling(s.answer.retcode) {
      assert log[0] == s;
    }
    if Rotated(rest, n) {
      var j :| 0 <= j < n && IsBadFilling(rest[j].answer.retcode);
      assert log[j + 1] == rest[j];
    }
    if Rotated(log, n + 1) {
      var j :| 0 <= j < n + 1 && IsBadFilling(log[j].answer.retcode);
      assert j > 0 ==> rest[j - 1] == log[j];
    }
  }

  lemma {:induction false} WorthShift(c: Call, l: Loop, l': Loop, book: seq<Position>, s: Sent, rest: seq<Sent>, i: nat)
    requires i < |rest| && l'.attempt == l.attempt + 1
    requires l'.rotated <==> l.rotated || IsBadFilling(s.answer.retcode)
    ensures WorthResending(c, l, book, [s] + rest, i + 1) <==> WorthResending(c, l', AddFill(book, s.answer), rest, i)
  {
    assert ([s] + rest)[i + 1] == rest[i];
    BookAfterShift(book, s, rest, i + 1);
    RotatedShift(s, rest, i);
  }

  lemma {:induction false} MoreSends(c: Call, k: nat, l: Loop, book: seq<Position>, u: Trace)
    requires var s, l' := Sent(l.request, c.world.answers(k)), Advance(c, k, l);
             && Verdict(c, k, l, AddFill(book, s.answer)).None?
             && CallGoes(c, k + 1, l', AddFill(book, s.answer), u)
    ensures CallGoes(c, k, l, book, u.(log := [Sent(l.request, c.world.answers(k))] + u.log))
  {
    var s := Sent(l.request, c.world.answers(k));
    var log := [s] + u.log;
    VerdictMeans(c, k, l, book, log);
    forall i | 0 <= i < |log|
      ensures log[i].answer == c.world.answers(k + i)
      ensures WorthResending(c, l, book, log, i) <==> i < |log| - 1
    {
      MoreWorth(c, k, l, book, u, i);
    }
    forall i | 0 <= i < |log| - 1
      ensures Resent(c.quote, c.world.ticks(k + i), log[i].answer.retcode, log[i].request, log[i + 1].request)
    {
      MoreResent(c, k, l, AddFill(book, s.answer), u, i);
    }
    EndShift(c, k, l, book, s, u);
  }

  lemma {:induction false} MoreWorth(c: Call, k: nat, l: Loop, book: seq<Position>, u: Trace, i: nat)
    requires var s, l' := Sent(l.request, c.world.answers(k)), Advance(c, k, l);
             && Verdict(c, k, l, AddFill(book, s.answer)).None?
             && CallGoes(c, k + 1, l', AddFill(book, s.answer), u)
    requires i < |u.log| + 1
    ensures var log := [Sent(l.request, c.world.answers(k))] + u.log;
            && log[i].answer == c.world.answers(k + i)
            && (WorthResending(c, l, book, log, i) <==> i < |log| - 1)
  {
    var s := Sent(l.request, c.world.answers(k));
    VerdictMeans(c, k, l, book, [s] + u.log);
    AdvanceMeans(c, k, l);
    if i > 0 {
      WorthShift(c, l, Advance(c, k, l), book, s, u.log, i - 1);
    }
  }

  lemma {:induction false} MoreResent(c: Call, k: nat, l: Loop, book: seq<Position>, u: Trace, i: nat)
    requires var code := c.world.answers(k).retcode; !IsDone(code) && !IsRefusal(code)
    requires CallGoes(c, k + 1, Advance(c, k, l), book, u) && i < |u.log|
    ensures var log := [Sent(l.request, c.world.answers(k))] + u.log;
            Resent(c.quote, c.world.ticks(k + i), log[i].answer.retcode, log[i].request, log[i + 1].request)
  {
    if i == 0 {
      AdvanceMeans(c, k, l);
    } else {
      assert k + i == (k + 1) + (i - 1);
    }
  }

  lemma {:induction false} EndShift(c: Call, k: nat, l: Loop, book: seq<Position>, s: Sent, u: Trace)
    requires CallGoes(c, k + 1, Advance(c, k, l), AddFill(book, s.answer), u)
    ensures EndsWell(c, k, l, book, [s] + u.log, u.outcome)
    ensures u.book == BookAfter(book, [s] + u.log, |[s] + u.log|)
  {
    BookAfterShift(book, s, u.log, |u.log|);
  }

  lemma {:induction false} SendGoes(c: Call, k: nat, l: Loop, book: seq<Position>)
    ensures CallGoes(c, k, l, book, Send(c, k, l, book))
    decreases Budget(c.pol) - l.attempt
  {
    var book' := AddFill(book, c.world.answers(k));
    if Verdict(c, k, l, book').Some? {
      LastSend(c, k, l, book);
    } else {
      var u := Send(c, k + 1, Advance(c, k, l), book');
      SendGoes(c, k + 1, Advance(c, k, l), book');
      MoreSends(c, k, l, book, u);
      CallGoesTrace(c, k, l, book, u.(log := [Sent(l.request, c.world.answers(k))] + u.log), Send(c, k, l, book));
    }
  }

  /** Sleeps do not matter to it. */
  lemma {:induction false} CallGoesTrace(c: Call, k: nat, l: Loop, book: seq<Position>, t: Trace, t': Trace)
    requires CallGoes(c, k, l, book, t) && t'.log == t.log && t'.outcome == t.outcome && t'.book == t.book
    ensures CallGoes(c, k, l, book, t')
  {
  }

  /** Every call, for any server: another send follows exactly when the answer is worth it (not done, not
      refused, no new position where the guard looks for one, one rotation at most, within the budget);
      it is the same order, but for a fresh price after a requote and a swapped filling mode; and the
      last answer decides between returning, with the new position's ticket where it was found, and
      raising its code. */
  lemma EachAnswer(pol: RetryPolicy, guard: bool, quote: Option<Quote>, world: World, k: nat,
                   request: Request, book: seq<Position>)
    ensures CallGoes(NewCall(pol, guard, quote, world, book), k, Start(request), book,
                     SendWithPolicy(pol, guard, quote, world, k, request, book))
  {
    SendGoes(NewCall(pol, guard, quote, world, book), k, Start(request), book);
  }

  // ------------------------------------------------------------------ sleeps

  /** How many of the first `n` answers are waited after: neither a requote nor a refused filling mode. */
  function Waits(log: seq<Sent>, n: nat): nat
    requires n <= |log|
  {
    if n == 0 then 0
    else
      var code := log[n - 1].answer.retcode;
      Waits(log, n - 1) + if IsRequote(code) || IsBadFilling(code) then 0 else 1
  }

  lemma {:induction false} WaitsShift(s: Sent, rest: seq<Sent>, n: nat)
    requires n <= |rest|
    ensures var code := s.answer.retcode;
            Waits([s] + rest, n + 1) == Waits(rest, n) + if IsRequote(code) || IsBadFilling(code) then 0 else 1
    decreases n
  {
    var log := [s] + rest;
    if n == 0 {
      assert Waits(log, 0) == 0;
    } else {
      WaitsShift(s, rest, n - 1);
      assert log[n] == rest[n - 1];
    }
  }

  lemma {:induction false} SendWaits(c: Call, k: nat, l: Loop, book: seq<Position>)
    requires l.delaysTaken <= l.attempt
    ensures var t := Send(c, k, l, book);
            t.log != [] && t.sleeps == Naps(c.pol, l.delaysTaken, Waits(t.log, |t.log| - 1))
    decreases Budget(c.pol) - l.attempt
  {
    var s := Sent(l.request, c.world.answers(k));
    var book' := AddFill(book, s.answer);
    if Verdict(c, k, l, book').None? {
      var u := Send(c, k + 1, Advance(c, k, l), book');
      SendWaits(c, k + 1, Advance(c, k, l), book');
      MoreWaits(c, k, l, u);
    } else {
      assert Waits([s], 0) == 0;
    }
  }

  lemma {:induction false} MoreWaits(c: Call, k: nat, l: Loop, u: Trace)
    requires l.delaysTaken < Budget(c.pol) && u.log != []
    requires u.sleeps == Naps(c.pol, Advance(c, k, l).delaysTaken, Waits(u.log, |u.log| - 1))
    ensures var answer := c.world.answers(k);
            var t := Prefixed(Sent(l.request, answer), SleepBefore(c.pol, l, Classify(answer.retcode)), u);
            t.sleeps == Naps(c.pol, l.delaysTaken, Waits(t.log, |t.log| - 1))
  {
    WaitsShift(Sent(l.request, c.world.answers(k)), u.log, |u.log| - 1);
    OneWait(c, k, l, Waits(u.log, |u.log| - 1));
  }

  /** The sleep before the next send, if there is one, and those after it. */
  lemma OneWait(c: Call, k: nat, l: Loop, m: nat)
    requires l.delaysTaken < Budget(c.pol)
    ensures var code := c.world.answers(k).retcode;
            SleepBefore(c.pol, l, Classify(code)) + Naps(c.pol, Advance(c, k, l).delaysTaken, m)
            == Naps(c.pol, l.delaysTaken, m + if IsRequote(code) || IsBadFilling(code) then 0 else 1)
  {
    ClassifyMeans(c.world.answers(k).retcode);
  }

  /** What is slept over `m` waits when the first of them is due `d`: each is multiplied for the next, none is
      longer than the longest, and what is not positive is not slept. */
  function Slept(pol: RetryPolicy, d: real, m: nat): seq<real>
    decreases m
  {
    if m == 0 then []
    else
      var nap := if d > pol.maxDelay then pol.maxDelay else d;
      (if nap > 0.0 then [nap] else []) + Slept(pol, Stretched(d, pol.mult), m - 1)
  }

  function Stretched(d: real, mult: real): real {
    d * mult
  }

  lemma NextPower(pol: RetryPolicy, j: nat, d: real)
    requires d == pol.baseDelay * Power(pol.mult, j)
    ensures Stretched(d, pol.mult) == pol.baseDelay * Power(pol.mult, j + 1)
    ensures Delay(pol, j) == if d > pol.maxDelay then pol.maxDelay else d
  {
    assert pol.baseDelay * (Power(pol.mult, j) * pol.mult) == pol.baseDelay * Power(pol.mult, j) * pol.mult;
  }

  lemma {:induction false} NapsAreSlept(pol: RetryPolicy, j: nat, m: nat, d: real)
    requires d == pol.baseDelay * Power(pol.mult, j)
    ensures Naps(pol, j, m) == Slept(pol, d, m)
    decreases m
  {
    if m > 0 {
      NextPower(pol, j, d);
      NapsAreSlept(pol, j + 1, m - 1, Stretched(d, pol.mult));
    }
  }

  /** Every call sleeps once per wait, ever longer, and after no other answer. */
  lemma {:induction false} SleepsPerWait(pol: RetryPolicy, guard: bool, quote: Option<Quote>, world: World, k: nat,
                                         request: Request, book: seq<Position>)
    ensures var t := SendWithPolicy(pol, guard, quote, world, k, request, book);
            t.log != [] && t.sleeps == Slept(pol, pol.baseDelay, Waits(t.log, |t.log| - 1))
  {
    SendWaits(NewCall(pol, guard, quote, world, book), k, Start(request), book);
    var log := SendWithPolicy(pol, guard, quote, world, k, request, book).log;
    NapsAreSlept(pol, 0, Waits(log, |log| - 1), pol.baseDelay);
  }

  // ------------------------------------------------------------------ the ladder

  /** The next volume to try after `v`, if there is one. */
  function Smaller(v: real): Option<real> {
    if v > 0.02 then Some(0.02) else if v > 0.01 then Some(0.01) else None
  }

  predicate Chain(ladder: seq<real>) {
    forall j :: 0 <= j < |ladder| ==> Smaller(ladder[j]) == After(ladder, j)
  }

  function After(ladder: seq<real>, j: nat): Option<real> {
    if j + 1 < |ladder| then Some(ladder[j + 1]) else None
  }

  /** "No money": the answer's code, or the digits somewhere else in the text of the error. */
  predicate NoMoney(world: World, at: nat, code: Option<int>) {
    code == Some(10019) || world.mentions(at)
  }

  /** What is known of the sends of one rung. */
  predicate RungGoes(world: World, first: Request, k: nat, v: real, t: Trace) {
    var n := |t.log| - 1;
    && t.log != [] && t.log[0].request == first.(volume := v)
    && (forall i :: 0 <= i <= n ==> t.log[i].request.volume == v)
    && (forall i :: 0 <= i < n ==> !IsDone(t.log[i].answer.retcode) && !IsRefusal(t.log[i].answer.retcode))
    && (IsRefusal(t.log[n].answer.retcode) ==> t.outcome.Raised?)
    && (IsDone(t.log[n].answer.retcode) ==> t.outcome.Returned?)
    && (t.outcome.Raised? ==> t.outcome == Raised(t.log[n].answer.retcode, k + n))
  }

  ghost predicate RungsGo(world: World, first: Request, rung: Attempt) {
    forall k: nat, v, b {:trigger RungGoes(world, first, k, v, rung(k, v, b))} ::
      RungGoes(world, first, k, v, rung(k, v, b))
  }

  ghost predicate SmallerOnNoMoney(world: World, smaller: Outcome -> bool) {
    forall o: Outcome :: smaller(o) <==> o.Raised? && NoMoney(world, o.at, o.retcode)
  }

  /** From one send of the ladder to the next: the same volume, or, after no money, the next smaller one
      and the first request again. */
  predicate Follows(world: World, first: Request, at: nat, s: Sent, s': Sent) {
    || s'.request.volume == s.request.volume
    || (&& NoMoney(world, at, s.answer.retcode)
        && Smaller(s.request.volume) == Some(s'.request.volume)
        && s'.request == first.(volume := s'.request.volume))
  }

  /** A refused send is followed by the next smaller volume exactly if it is for want of money and there
      is one; otherwise it is the last, and its code is raised. */
  predicate AfterRefusal(world: World, k: nat, t: Trace, i: nat)
    requires i < |t.log|
  {
    var code, v := t.log[i].answer.retcode, t.log[i].request.volume;
    IsRefusal(code) ==>
      if NoMoney(world, k + i, code) && Smaller(v).Some? then
        i + 1 < |t.log| && t.log[i + 1].request.volume == Smaller(v).value
      else i == |t.log| - 1 && t.outcome == Raised(code, k + i)
  }

  /** The sends from number `k` on, starting with volume `v`. */
  predicate LadderGoes(world: World, first: Request, k: nat, v: real, t: Trace) {
    var n := |t.log| - 1;
    && t.log != [] && t.log[0].request == first.(volume := v)
    && (forall i :: 0 <= i < n ==> Follows(world, first, k + i, t.log[i], t.log[i + 1]))
    && (forall i :: 0 <= i <= n ==> AfterRefusal(world, k, t, i))
    && (forall i :: 0 <= i < n ==> !IsDone(t.log[i].answer.retcode))
    && (t.outcome.Raised? ==>
          && t.outcome == Raised(t.log[n].answer.retcode, k + n)
          && (NoMoney(world, k + n, t.log[n].answer.retcode) ==> Smaller(t.log[n].request.volume).None?))
  }

  lemma {:induction false} OneRung(world: World, first: Request, k: nat, v: real, t: Trace)
    requires RungGoes(world, first, k, v, t)
    requires t.outcome.Raised? && NoMoney(world, t.outcome.at, t.outcome.retcode) ==> Smaller(v).None?
    ensures LadderGoes(world, first, k, v, t)
  {
    forall i | 0 <= i < |t.log| ensures AfterRefusal(world, k, t, i) {}
  }

  /** The last send of a rung that was out of money, and the first of the next. */
  lemma {:induction false} JoinRungs(world: World, first: Request, k: nat, v: real, w: real, t: Trace, u: Trace)
    requires RungGoes(world, first, k, v, t) && LadderGoes(world, first, k + |t.log|, w, u)
    requires t.outcome.Raised? && NoMoney(world, t.outcome.at, t.outcome.retcode) && Smaller(v) == Some(w)
    ensures LadderGoes(world, first, k, v, Joined(t, u))
  {
    var j, m, n := Joined(t, u), |t.log|, |t.log| + |u.log| - 1;
    forall i | 0 <= i < n
      ensures Follows(world, first, k + i, j.log[i], j.log[i + 1]) && !IsDone(j.log[i].answer.retcode)
    {
      JoinedFollows(world, first, k, v, w, t, u, i);
    }
    forall i | 0 <= i <= n ensures AfterRefusal(world, k, j, i) {
      JoinedRefusal(world, first, k, v, w, t, u, i);
    }
    assert k + m + (|u.log| - 1) == k + n && j.log[n] == u.log[|u.log| - 1];
  }

  lemma {:induction false} JoinedFollows(world: World, first: Request, k: nat, v: real, w: real, t: Trace, u: Trace,
                                         i: nat)
    requires RungGoes(world, first, k, v, t) && LadderGoes(world, first, k + |t.log|, w, u)
    requires t.outcome.Raised? && NoMoney(world, t.outcome.at, t.outcome.retcode) && Smaller(v) == Some(w)
    requires i < |t.log| + |u.log| - 1
    ensures var log := t.log + u.log; Follows(world, first, k + i, log[i], log[i + 1]) && !IsDone(log[i].answer.retcode)
  {
    var m := |t.log|;
    if i >= m {
      assert Follows(world, first, k + m + (i - m), u.log[i - m], u.log[i - m + 1]);
    }
  }

  lemma {:induction false} JoinedRefusal(world: World, first: Request, k: nat, v: real, w: real, t: Trace, u: Trace,
                                         i: nat)
    requires RungGoes(world, first, k, v, t) && LadderGoes(world, first, k + |t.log|, w, u)
    requires t.outcome.Raised? && NoMoney(world, t.outcome.at, t.outcome.retcode) && Smaller(v) == Some(w)
    requires i < |t.log| + |u.log|
    ensures AfterRefusal(world, k, Joined(t, u), i)
  {
    var m := |t.log|;
    if i >= m {
      assert AfterRefusal(world, k + m, u, i - m);
    }
  }

  lemma ChainTail(ladder: seq<real>)
    requires |ladder| > 1 && Chain(ladder)
    ensures Chain(ladder[1..]) && Smaller(ladder[0]) == Some(ladder[1])
  {
    assert After(ladder, 0) == Some(ladder[1]);
    forall j | 0 <= j < |ladder| - 1 ensures Smaller(ladder[1..][j]) == After(ladder[1..], j) {
      assert ladder[1..][j] == ladder[j + 1] && After(ladder, j + 1) == After(ladder[1..], j);
    }
  }

  /** What climbing these rungs comes to. */
  ghost predicate Climbs(world: World, first: Request, rung: Attempt, smaller: Outcome -> bool, k: nat,
                         ladder: seq<real>, book: seq<Position>)
    requires ladder != []
  {
    forall t: Trace :: t == Climb(rung, smaller, k, ladder, book) ==> LadderGoes(world, first, k, ladder[0], t)
  }

  lemma {:induction false} ClimbGoes(world: World, first: Request, rung: Attempt, smaller: Outcome -> bool, k: nat,
                                     ladder: seq<real>, book: seq<Position>)
    requires ladder != [] && Chain(ladder)
    requires RungsGo(world, first, rung) && SmallerOnNoMoney(world, smaller)
    ensures Climbs(world, first, rung, smaller, k, ladder, book)
    decreases |ladder|
  {
    var t := rung(k, ladder[0], book);
    if |ladder| == 1 || !smaller(t.outcome) {
      LastRung(world, first, rung, smaller, k, ladder, book);
    } else {
      ChainTail(ladder);
      ClimbGoes(world, first, rung, smaller, k + |t.log|, ladder[1..], t.book);
      NextRung(world, first, rung, smaller, k, ladder, book);
    }
  }

  lemma {:induction false} LastRung(world: World, first: Request, rung: Attempt, smaller: Outcome -> bool, k: nat,
                                    ladder: seq<real>, book: seq<Position>)
    requires ladder != [] && Chain(ladder) && RungsGo(world, first, rung) && SmallerOnNoMoney(world, smaller)
    requires |ladder| == 1 || !smaller(rung(k, ladder[0], book).outcome)
    ensures Climbs(world, first, rung, smaller, k, ladder, book)
  {
    RungAt(world, first, rung, smaller, k, ladder[0], book);
    assert Smaller(ladder[0]) == After(ladder, 0);
    OneRung(world, first, k, ladder[0], rung(k, ladder[0], book));
  }

  lemma RungAt(world: World, first: Request, rung: Attempt, smaller: Outcome -> bool, k: nat, v: real,
               book: seq<Position>)
    requires RungsGo(world, first, rung) && SmallerOnNoMoney(world, smaller)
    ensures var t := rung(k, v, book);
            && RungGoes(world, first, k, v, t)
            && (smaller(t.outcome) <==> t.outcome.Raised? && NoMoney(world, t.outcome.at, t.outcome.retcode))
  {
  }

  lemma {:induction false} NextRung(world: World, first: Request, rung: Attempt, smaller: Outcome -> bool, k: nat,
                                    ladder: seq<real>, book: seq<Position>)
    requires |ladder| > 1 && Smaller(ladder[0]) == Some(ladder[1])
    requires RungsGo(world, first, rung) && SmallerOnNoMoney(world, smaller)
    requires var t := rung(k, ladder[0], book);
             smaller(t.outcome) && Climbs(world, first, rung, smaller, k + |t.log|, ladder[1..], t.book)
    ensures Climbs(world, first, rung, smaller, k, ladder, book)
  {
    var t := rung(k, ladder[0], book);
    RungAt(world, first, rung, smaller, k, ladder[0], book);
    assert ladder[1..][0] == ladder[1];
    JoinRungs(world, first, k, ladder[0], ladder[1], t, Climb(rung, smaller, k + |t.log|, ladder[1..], t.book));
  }

  lemma ResentVolume(quote: Option<Quote>, tick: Option<real>, code: Option<int>, req: Request, req': Request)
    requires Resent(quote, tick, code, req, req')
    ensures req'.volume == req.volume
  {
  }

  lemma {:induction false} SameVolume(c: Call, k: nat, l: Loop, book: seq<Position>, t: Trace, i: nat)
    requires CallGoes(c, k, l, book, t) && i < |t.log|
    ensures t.log[i].request.volume == l.request.volume
    decreases i
  {
    if i > 0 {
      SameVolume(c, k, l, book, t, i - 1);
      ResentVolume(c.quote, c.world.ticks(k + (i - 1)), t.log[i - 1].answer.retcode, t.log[i - 1].request,
                   t.log[i].request);
    }
  }

  lemma {:induction false} CallIsRung(c: Call, k: nat, l: Loop, book: seq<Position>, t: Trace, first: Request)
    requires CallGoes(c, k, l, book, t) && l.request == first.(volume := l.request.volume)
    ensures RungGoes(c.world, first, k, l.request.volume, t)
  {
    forall i | 0 <= i < |t.log| ensures t.log[i].request.volume == l.request.volume {
      SameVolume(c, k, l, book, t, i);
    }
    forall i | 0 <= i < |t.log| - 1
      ensures !IsDone(t.log[i].answer.retcode) && !IsRefusal(t.log[i].answer.retcode)
    {
      assert WorthResending(c, l, book, t.log, i);
    }
  }

  lemma EntryRung(e: Entry, k: nat, volume: real, book: seq<Position>)
    ensures RungGoes(e.world, FirstRequest(e.quote, 0.0, e.px, e.filling), k, volume, e.Rung(k, volume, book))
  {
    var req := FirstRequest(e.quote, volume, e.px, e.filling);
    SendGoes(NewCall(e.pol, true, Some(e.quote), e.world, book), k, Start(req), book);
    CallIsRung(NewCall(e.pol, true, Some(e.quote), e.world, book), k, Start(req), book, e.Rung(k, volume, book),
               FirstRequest(e.quote, 0.0, e.px, e.filling));
  }

  lemma LadderChain(want: real)
    ensures Chain(Ladder(want))
  {
  }

  /** The first order of an entry: the signal's volume or the default one, at the tick's price, with the
      signal's own distances on their proper sides. */
  predicate FirstOrder(sig: Signal, serverTp: bool, defaultQty: real, px: real, filling: Filling, req: Request) {
    var own := sig.qty.Some? && sig.qty.value != 0.0;
    var stop, target := sig.stop.Some? && sig.stop.value != 0.0, sig.tp.Some? && sig.tp.value != 0.0 && serverTp;
    && req.price == px && req.filling == filling
    && req.volume == (if own then sig.qty.value else defaultQty)
    && req.sl == (if !stop then 0.0
                  else if sig.short then px + Abs(sig.price - sig.stop.value)
                  else px - Abs(sig.price - sig.stop.value))
    && req.tp == (if !target then 0.0
                  else if sig.short then px - Abs(sig.price - sig.tp.value)
                  else px + Abs(sig.price - sig.tp.value))
  }

  /** Opening a position, for any server.  From one send to the next the volume stays, or, exactly after
      an answer that is raised for want of money with a smaller volume left, falls to 0.02 and then 0.01
      with the first order's terms; any other refusal ends it and is raised; and "no money" is raised
      only at the smallest. */
  lemma VolumeFallsOnNoMoney(pol: RetryPolicy, sig: Signal, serverTp: bool, defaultQty: real, world: World,
                             px: real, filling: Filling, book: seq<Position>)
    ensures var t := Open(pol, sig, serverTp, defaultQty, world, px, filling, book);
            && t.log != []
            && FirstOrder(sig, serverTp, defaultQty, px, filling, t.log[0].request)
            && LadderGoes(world, t.log[0].request, 0, t.log[0].request.volume, t)
  {
    var e, want := Entry(pol, QuoteOf(sig, serverTp), world, px, filling), Want(sig, defaultQty);
    var first := FirstRequest(e.quote, 0.0, px, filling);
    var rung := e.Rungs();
    forall k: nat, v, b ensures RungGoes(world, first, k, v, rung(k, v, b)) {
      EntryRung(e, k, v, b);
    }
    LadderChain(want);
    ClimbGoes(world, first, rung, e.Smaller(), 0, Ladder(want), book);
    SameFirst(world, first, first.(volume := want), 0, want,
              Open(pol, sig, serverTp, defaultQty, world, px, filling, book));
  }

  lemma {:induction false} SameFirst(world: World, first: Request, first': Request, k: nat, v: real, t: Trace)
    requires LadderGoes(world, first, k, v, t) && first' == first.(volume := first'.volume)
    ensures LadderGoes(world, first', k, v, t)
  {
    forall i | 0 <= i < |t.log| - 1 ensures Follows(world, first', k + i, t.log[i], t.log[i + 1]) {
      assert Follows(world, first, k + i, t.log[i], t.log[i + 1]);
    }
  }
}
