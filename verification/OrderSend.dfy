/** Sending orders to the trade server under a retcode policy, and the volume ladder above it.

    The server is adversarial within stated assumptions: it chooses every answer, including whether a
    send whose answer is lost was executed.  `World` holds those choices, numbered by send. */
module OrderSend {
  import opened Prelude

  // ------------------------------------------------------------------ the retcode table

  datatype PolicyAction =
    | Success | SuccessPartial | RetryFreshPrice | RetryBackoff | Ambiguous
    | DeferLadder | RotateFilling | Abort | AbortAlert

  const NO_MONEY := 10019

  /** What to do about an answer; no answer at all is ambiguous, an unknown code aborts. */
  function Classify(retcode: Option<int>): PolicyAction {
    match retcode
    case None => Ambiguous
    case Some(code) =>
      if code == 10008 || code == 10009 then Success
      else if code == 10010 then SuccessPartial
      else if code == 10004 || code == 10015 || code == 10020 then RetryFreshPrice
      else if code == 10006 || code == 10011 || code == 10021 || code == 10024 || code == 10028 then RetryBackoff
      else if code == 10012 || code == 10031 then Ambiguous
      else if code == NO_MONEY then DeferLadder
      else if code == 10030 then RotateFilling
      else if code == 10016 || code == 10026 || code == 10027 then AbortAlert
      else Abort
  }

  predicate Succeeds(action: PolicyAction) {
    action.Success? || action.SuccessPartial?
  }

  /** Raised at once, without consulting the retry budget. */
  predicate Hopeless(action: PolicyAction) {
    action.DeferLadder? || action.Abort? || action.AbortAlert?
  }

  // ------------------------------------------------------------------ backoff

  datatype RetryPolicy = RetryPolicy(maxRetries: int, baseDelay: real, mult: real, maxDelay: real)

  function Budget(pol: RetryPolicy): nat {
    if pol.maxRetries > 0 then pol.maxRetries else 0
  }

  function Power(x: real, n: nat): real {
    if n == 0 then 1.0 else Power(x, n - 1) * x
  }

  /** The j-th backoff delay: exponential, capped. */
  function Delay(pol: RetryPolicy, j: nat): real {
    Min(pol.baseDelay * Power(pol.mult, j), pol.maxDelay)
  }

  /** `next(delay_iter, max_delay)` when `j` delays have been taken. */
  function NextDelay(pol: RetryPolicy, j: nat): real {
    if j < Budget(pol) then Delay(pol, j) else pol.maxDelay
  }

  /** The generator `delays`, run to its end. */
  method Delays(pol: RetryPolicy) returns (out: seq<real>)
    ensures |out| == Budget(pol)
    ensures forall j :: 0 <= j < |out| ==> out[j] == Delay(pol, j)
  {
    out := [];
    var d := pol.baseDelay;
    var i := 0;
    while i < pol.maxRetries
      invariant 0 <= i <= Budget(pol) && |out| == i
      invariant d == pol.baseDelay * Power(pol.mult, i)
      invariant forall j :: 0 <= j < i ==> out[j] == Delay(pol, j)
    {
      out := out + [Min(d, pol.maxDelay)];
      d := d * pol.mult;
      i := i + 1;
    }
  }

  // ------------------------------------------------------------------ requests and the server

  datatype Filling = Ioc | Fok | ReturnRest

  datatype Request = Request(volume: real, price: real, sl: real, tp: real, filling: Filling)

  function Swap(f: Filling): Filling {
    match f
    case Ioc => Fok
    case Fok => Ioc
    case ReturnRest => ReturnRest
  }

  datatype Position = Position(ticket: int, volume: real, price: real)

  /** An answer, what the server did (`fill`: the position it opened), and whether a re-query right
      after shows that position. */
  datatype Answer = Answer(retcode: Option<int>, fill: Option<Position>, visible: bool)

  /** The choices of the outside, by send number: the answer; the tick a price refresh reads; and
      whether the text of an error raised after that send happens to contain the digits 10019 for
      some other reason than its retcode (a price, a comment, the last-error text). */
  datatype World = World(answers: nat -> Answer, ticks: nat -> Option<real>, mentions: nat -> bool)

  /** What of the signal a refresh needs: direction and the risk distances, zero standing for "no
      stop" / "no server take-profit". */
  datatype Quote = Quote(short: bool, stopDist: Option<real>, tpDist: Option<real>)

  function Anchored(q: Quote, req: Request, px: real): Request {
    var r1 := req.(price := px);
    var r2 := if q.stopDist.None? then r1
              else r1.(sl := if q.short then px + q.stopDist.value else px - q.stopDist.value);
    if q.tpDist.None? then r2
    else r2.(tp := if q.short then px - q.tpDist.value else px + q.tpDist.value)
  }

  /** `refresh_price`: no tick leaves the request as it is; no callable (plain sends) likewise. */
  function Refreshed(q: Option<Quote>, req: Request, tick: Option<real>): Request {
    if q.None? || tick.None? then req else Anchored(q.value, req, tick.value)
  }

  // ------------------------------------------------------------------ the send loop

  datatype Outcome = Returned(ticket: Option<int>) | Raised(retcode: Option<int>, at: nat)

  datatype Sent = Sent(request: Request, answer: Answer)

  /** A finished loop: its outcome, the sends in order, the sleeps, and the server's position list. */
  datatype Trace = Trace(outcome: Outcome, log: seq<Sent>, sleeps: seq<real>, book: seq<Position>)

  function AddFill(book: seq<Position>, answer: Answer): seq<Position> {
    if answer.fill.Some? && answer.visible then book + [answer.fill.value] else book
  }

  function Tickets(book: seq<Position>): set<int> {
    set i | 0 <= i < |book| :: book[i].ticket
  }

  /** `_recovered_entry`: the first position that was not there before the first send. */
  function Recovered(book: seq<Position>, before: set<int>): (r: Option<int>)
    ensures r.Some? ==> r.value !in before && exists i :: 0 <= i < |book| && book[i].ticket == r.value
    ensures r.None? ==> forall i :: 0 <= i < |book| ==> book[i].ticket in before
  {
    if book == [] then None
    else if book[0].ticket !in before then Some(book[0].ticket)
    else Recovered(book[1..], before)
  }

  /** What one call keeps fixed: policy, guard, price refresh, the outside, and the tickets seen
      before the first send. */
  datatype Call = Call(pol: RetryPolicy, guard: bool, quote: Option<Quote>, world: World, before: set<int>)

  /** What the loop carries from one send to the next. */
  datatype Loop = Loop(attempt: nat, rotated: bool, delaysTaken: nat, request: Request)

  /** Whether the loop ends on the answer to send number `k`. */
  function Verdict(c: Call, k: nat, l: Loop, book: seq<Position>): Option<Outcome> {
    var retcode := c.world.answers(k).retcode;
    var action := Classify(retcode);
    var recovered := Recovered(book, c.before);
    if Succeeds(action) then Some(Returned(None))
    else if action.Ambiguous? && c.guard && recovered.Some? then Some(Returned(recovered))
    else if Hopeless(action) || (action.RotateFilling? && l.rotated) || l.attempt >= c.pol.maxRetries then
      Some(Raised(retcode, k))
    else None
  }

  function SleepBefore(pol: RetryPolicy, l: Loop, action: PolicyAction): seq<real> {
    if action.RotateFilling? || action.RetryFreshPrice? || NextDelay(pol, l.delaysTaken) <= 0.0 then []
    else [NextDelay(pol, l.delaysTaken)]
  }

  function Advance(c: Call, k: nat, l: Loop): Loop {
    var action := Classify(c.world.answers(k).retcode);
    var l' := l.(attempt := l.attempt + 1);
    if action.RotateFilling? then l'.(rotated := true, request := l.request.(filling := Swap(l.request.filling)))
    else if action.RetryFreshPrice? then l'.(request := Refreshed(c.quote, l.request, c.world.ticks(k)))
    else l'.(delaysTaken := l.delaysTaken + 1)
  }

  /** The loop from send number `k` on. */
  function Send(c: Call, k: nat, l: Loop, book: seq<Position>): Trace
    decreases Budget(c.pol) - l.attempt
  {
    var answer := c.world.answers(k);
    var book' := AddFill(book, answer);
    var verdict := Verdict(c, k, l, book');
    if verdict.Some? then Trace(verdict.value, [Sent(l.request, answer)], [], book')
    else Prefixed(Sent(l.request, answer), SleepBefore(c.pol, l, Classify(answer.retcode)),
                  Send(c, k + 1, Advance(c, k, l), book'))
  }

  function Prefixed(s: Sent, nap: seq<real>, t: Trace): Trace {
    t.(log := [s] + t.log, sleeps := nap + t.sleeps)
  }

  function Start(request: Request): Loop {
    Loop(0, false, 0, request)
  }

  function NewCall(pol: RetryPolicy, guard: bool, quote: Option<Quote>, world: World, book: seq<Position>): Call {
    Call(pol, guard, quote, world, if guard then Tickets(book) else {})
  }

  /** One call of `_send_with_policy`. */
  function SendWithPolicy(pol: RetryPolicy, guard: bool, quote: Option<Quote>, world: World, k: nat,
                          request: Request, book: seq<Position>): Trace
  {
    Send(NewCall(pol, guard, quote, world, book), k, Start(request), book)
  }

  // ------------------------------------------------------------------ what is promised

  function Fills(log: seq<Sent>): nat {
    if log == [] then 0 else (if log[0].answer.fill.Some? then 1 else 0) + Fills(log[1..])
  }

  function Total(sleeps: seq<real>): real {
    if sleeps == [] then 0.0 else sleeps[0] + Total(sleeps[1..])
  }

  /** The server answers success only for an executed order and a definite refusal only for one it
      did not execute; an ambiguous answer may be either.  A new position has a ticket not in use,
      and nobody else opens positions. */
  ghost predicate Honest(world: World, taken: set<int>) {
    forall k: nat ::
      var a := world.answers(k);
      && (Succeeds(Classify(a.retcode)) ==> a.fill.Some?)
      && (!Succeeds(Classify(a.retcode)) && !Classify(a.retcode).Ambiguous? ==> a.fill.None?)
      && (a.fill.Some? ==> a.fill.value.ticket !in taken)
  }

  /** Every fill shows up in the position list at once. */
  ghost predicate FillsVisible(world: World) {
    forall k: nat :: world.answers(k).fill.Some? ==> world.answers(k).visible
  }

  lemma RecoveredNew(book: seq<Position>, before: set<int>, p: Position)
    requires p.ticket !in before
    ensures Recovered(book + [p], before).Some?
  {
    assert (book + [p])[|book|].ticket !in before;
  }

  lemma {:induction false} RecoveredNothing(book: seq<Position>, before: set<int>)
    requires forall i :: 0 <= i < |book| ==> book[i].ticket in before
    ensures Recovered(book, before) == None
  {
    if book != [] {
      RecoveredNothing(book[1..], before);
    }
  }

  lemma FillsFirst(s: Sent, log: seq<Sent>)
    ensures Fills([s] + log) == (if s.answer.fill.Some? then 1 else 0) + Fills(log)
  {
    assert ([s] + log)[1..] == log;
  }

  lemma {:induction false} SendFillsOnce(c: Call, k: nat, l: Loop, book: seq<Position>)
    requires c.guard && Honest(c.world, c.before) && FillsVisible(c.world)
    requires forall i :: 0 <= i < |book| ==> book[i].ticket in c.before
    ensures var t := Send(c, k, l, book);
            && (t.outcome.Returned? ==> Fills(t.log) == 1)
            && (t.outcome.Raised? ==> Fills(t.log) == 0 && t.book == book)
    decreases Budget(c.pol) - l.attempt
  {
    var answer := c.world.answers(k);
    var book' := AddFill(book, answer);
    if answer.fill.Some? {
      RecoveredNew(book, c.before, answer.fill.value);
    } else {
      RecoveredNothing(book, c.before);
    }
    if Verdict(c, k, l, book').None? {
      assert answer.fill.None?;
      SendFillsOnce(c, k + 1, Advance(c, k, l), book');
      FillsFirst(Sent(l.request, answer), Send(c, k + 1, Advance(c, k, l), book').log);
    }
  }

  /** A guarded call returns exactly when one fill happened and raises exactly when none did. */
  lemma GuardedExact(pol: RetryPolicy, quote: Option<Quote>, world: World, k: nat,
                     request: Request, book: seq<Position>)
    requires Honest(world, Tickets(book)) && FillsVisible(world)
    ensures var t := SendWithPolicy(pol, true, quote, world, k, request, book);
            && (t.outcome.Returned? <==> Fills(t.log) == 1)
            && (t.outcome.Raised? <==> Fills(t.log) == 0)
            && (t.outcome.Raised? ==> t.book == book)
  {
    SendFillsOnce(NewCall(pol, true, quote, world, book), k, Start(request), book);
  }

  /** A server that executes every order and never answers. */
  function Silent(visible: bool): World {
    World(_ => Answer(None, Some(Position(-1, 0.01, 0.0)), visible), _ => None, _ => false)
  }

  lemma {:induction false} SilentRaises(c: Call, visible: bool, k: nat, l: Loop, book: seq<Position>)
    requires c.world == Silent(visible) && (!c.guard || (!visible && book == []))
    ensures var t := Send(c, k, l, book);
            t.outcome.Raised? && Fills(t.log) >= if l.attempt < Budget(c.pol) then 2 else 1
    decreases Budget(c.pol) - l.attempt
  {
    var answer := c.world.answers(k);
    var book' := AddFill(book, answer);
    if Verdict(c, k, l, book').None? {
      SilentRaises(c, visible, k + 1, Advance(c, k, l), book');
      FillsFirst(Sent(l.request, answer), Send(c, k + 1, Advance(c, k, l), book').log);
    }
  }

  /** Guard and visibility are both needed, under every policy.  Without the guard there is an
      honest server with visible fills for which the call raises although an order filled, and, as
      soon as one retry is allowed, although two filled; with the guard the same happens if fills
      are not visible at the re-query. */
  lemma GuardNeeded(pol: RetryPolicy, quote: Option<Quote>, request: Request)
    ensures var t := SendWithPolicy(pol, false, quote, Silent(true), 0, request, []);
            && Honest(Silent(true), {}) && FillsVisible(Silent(true))
            && t.outcome.Raised? && Fills(t.log) >= if pol.maxRetries > 0 then 2 else 1
    ensures var t := SendWithPolicy(pol, true, quote, Silent(false), 0, request, []);
            && Honest(Silent(false), {})
            && t.outcome.Raised? && Fills(t.log) >= if pol.maxRetries > 0 then 2 else 1
  {
    SilentRaises(NewCall(pol, false, quote, Silent(true), []), true, 0, Start(request), []);
    SilentRaises(NewCall(pol, true, quote, Silent(false), []), false, 0, Start(request), []);
  }

  // ------------------------------------------------------------------ budgets, for any server

  /** Filling rotations that led to another send. */
  function Rotations(log: seq<Sent>): nat {
    if |log| <= 1 then 0
    else (if Classify(log[0].answer.retcode).RotateFilling? then 1 else 0) + Rotations(log[1..])
  }

  lemma {:induction false} SendBounded(c: Call, k: nat, l: Loop, book: seq<Position>)
    requires l.attempt <= Budget(c.pol)
    ensures var t := Send(c, k, l, book);
            && 1 <= |t.log| <= Budget(c.pol) - l.attempt + 1
            && Rotations(t.log) <= (if l.rotated then 0 else 1)
            && |t.sleeps| < |t.log|
            && (t.outcome.Raised? ==> t.outcome.at == k + |t.log| - 1)
    decreases Budget(c.pol) - l.attempt
  {
    var answer := c.world.answers(k);
    var book' := AddFill(book, answer);
    if Verdict(c, k, l, book').None? {
      SendBounded(c, k + 1, Advance(c, k, l), book');
      var rest := Send(c, k + 1, Advance(c, k, l), book').log;
      assert ([Sent(l.request, answer)] + rest)[1..] == rest;
    }
  }

  /** The sleeps are the backoff's own delays, in order, from the j-th on. */
  predicate BackoffFrom(pol: RetryPolicy, j: nat, sleeps: seq<real>) {
    forall i :: 0 <= i < |sleeps| ==> sleeps[i] == Delay(pol, j + i)
  }

  predicate Capped(cap: real, sleeps: seq<real>) {
    forall i :: 0 <= i < |sleeps| ==> 0.0 < sleeps[i] <= cap
  }

  /** The sleeps that delays j, j + 1, ..., j + m - 1 come to: a delay that is not positive is taken
      without sleeping. */
  function Naps(pol: RetryPolicy, j: nat, m: nat): seq<real>
    decreases m
  {
    if m == 0 then []
    else (if Delay(pol, j) > 0.0 then [Delay(pol, j)] else []) + Naps(pol, j + 1, m - 1)
  }

  lemma {:induction false} NapsAll(pol: RetryPolicy, j: nat, m: nat)
    requires forall i: nat :: Delay(pol, i) > 0.0
    ensures |Naps(pol, j, m)| == m && BackoffFrom(pol, j, Naps(pol, j, m))
    decreases m
  {
    if m > 0 {
      NapsAll(pol, j + 1, m - 1);
      var all, rest := Naps(pol, j, m), Naps(pol, j + 1, m - 1);
      forall i | 0 < i < m ensures all[i] == Delay(pol, j + i) {
        assert all[i] == rest[i - 1];
      }
    }
  }

  lemma {:induction false} SendNaps(c: Call, k: nat, l: Loop, book: seq<Position>)
    requires l.attempt <= Budget(c.pol)
    ensures Capped(c.pol.maxDelay, Send(c, k, l, book).sleeps)
    decreases Budget(c.pol) - l.attempt
  {
    var answer := c.world.answers(k);
    var book' := AddFill(book, answer);
    if Verdict(c, k, l, book').None? {
      SendNaps(c, k + 1, Advance(c, k, l), book');
    }
  }

  lemma {:induction false} SendSleeps(c: Call, k: nat, l: Loop, book: seq<Position>) returns (m: nat)
    requires l.delaysTaken <= l.attempt <= Budget(c.pol)
    ensures l.delaysTaken + m <= Budget(c.pol)
    ensures Send(c, k, l, book).sleeps == Naps(c.pol, l.delaysTaken, m)
    decreases Budget(c.pol) - l.attempt
  {
    m := 0;
    var answer := c.world.answers(k);
    var book' := AddFill(book, answer);
    if Verdict(c, k, l, book').None? {
      var action, l' := Classify(answer.retcode), Advance(c, k, l);
      m := SendSleeps(c, k + 1, l', book');
      if l'.delaysTaken == l.delaysTaken + 1 {
        m := m + 1;
      }
    }
  }

  /** The request carries the signal's own risk distances from its price. */
  predicate KeepsRisk(q: Quote, req: Request) {
    && (q.stopDist.Some? ==> req.sl == if q.short then req.price + q.stopDist.value else req.price - q.stopDist.value)
    && (q.tpDist.Some? ==> req.tp == if q.short then req.price - q.tpDist.value else req.price + q.tpDist.value)
  }

  /** Requests with the signal's risk distances and volumes that never rise, within [floor, top]. */
  predicate GoodLog(q: Quote, log: seq<Sent>, top: real, floor: real) {
    && VolumesFall(log)
    && forall i :: 0 <= i < |log| ==> floor <= log[i].request.volume <= top && KeepsRisk(q, log[i].request)
  }

  predicate VolumesFall(log: seq<Sent>) {
    forall i, j :: 0 <= i < j < |log| ==> log[i].request.volume >= log[j].request.volume
  }

  lemma GoodConcat(q: Quote, a: seq<Sent>, b: seq<Sent>, top: real, mid: real, mid': real, floor: real)
    requires GoodLog(q, a, top, mid) && GoodLog(q, b, mid', floor) && floor <= mid' <= mid <= top
    ensures GoodLog(q, a + b, top, floor)
  {
    forall i | |a| <= i < |a + b| ensures (a + b)[i] == b[i - |a|] {}
  }

  lemma {:induction false} SendRequests(c: Call, k: nat, l: Loop, book: seq<Position>)
    requires c.quote.Some? && KeepsRisk(c.quote.value, l.request)
    ensures GoodLog(c.quote.value, Send(c, k, l, book).log, l.request.volume, l.request.volume)
    decreases Budget(c.pol) - l.attempt
  {
    var book' := AddFill(book, c.world.answers(k));
    if Verdict(c, k, l, book').None? {
      SendRequests(c, k + 1, Advance(c, k, l), book');
      var v := l.request.volume;
      GoodConcat(c.quote.value, [Sent(l.request, c.world.answers(k))], Send(c, k + 1, Advance(c, k, l), book').log,
                 v, v, v, v);
    }
  }

  lemma {:induction false} TotalBounded(sleeps: seq<real>, cap: real)
    requires Capped(cap, sleeps)
    ensures Total(sleeps) <= |sleeps| as real * cap
  {
    if sleeps != [] {
      TotalBounded(sleeps[1..], cap);
    }
  }

  /** Longest that the sleeps of one call can take in all. */
  function SleepCap(pol: RetryPolicy): real {
    Budget(pol) as real * pol.maxDelay
  }

  lemma TotalWithin(pol: RetryPolicy, sleeps: seq<real>)
    requires Capped(pol.maxDelay, sleeps) && sleeps != [] && |sleeps| <= Budget(pol)
    ensures Total(sleeps) <= SleepCap(pol)
  {
    assert 0.0 < sleeps[0] <= pol.maxDelay;
    TotalBounded(sleeps, pol.maxDelay);
    assert (Budget(pol) - |sleeps|) as real * pol.maxDelay >= 0.0;
  }

  /** One call, whatever the server does: at most maxRetries + 1 sends, at most one filling rotation,
      at most maxRetries sleeps and at most maxRetries * maxDelay of them in all. */
  lemma CallBounded(pol: RetryPolicy, guard: bool, quote: Option<Quote>, world: World, k: nat,
                    request: Request, book: seq<Position>)
    ensures var t := SendWithPolicy(pol, guard, quote, world, k, request, book);
            && 1 <= |t.log| <= Budget(pol) + 1
            && Rotations(t.log) <= 1
            && |t.sleeps| <= Budget(pol)
            && (t.sleeps != [] ==> Total(t.sleeps) <= SleepCap(pol))
  {
    var c := NewCall(pol, guard, quote, world, book);
    var t := SendWithPolicy(pol, guard, quote, world, k, request, book);
    SendBounded(c, k, Start(request), book);
    SendNaps(c, k, Start(request), book);
    if t.sleeps != [] {
      TotalWithin(pol, t.sleeps);
    }
  }

  /** Under any policy: the sleeps are the first `m` of the backoff's delays in order, those that are
      not positive taken without sleeping, and `m` is within the budget, so the default of the
      exhausted iterator is never used; where all delays are positive none is skipped. */
  lemma SleepsAreBackoff(pol: RetryPolicy, guard: bool, quote: Option<Quote>, world: World, k: nat,
                         request: Request, book: seq<Position>) returns (m: nat)
    ensures var sleeps := SendWithPolicy(pol, guard, quote, world, k, request, book).sleeps;
            && m <= Budget(pol) && sleeps == Naps(pol, 0, m)
            && ((forall j: nat :: Delay(pol, j) > 0.0) ==> |sleeps| == m && BackoffFrom(pol, 0, sleeps))
  {
    m := SendSleeps(NewCall(pol, guard, quote, world, book), k, Start(request), book);
    if forall j: nat :: Delay(pol, j) > 0.0 {
      NapsAll(pol, 0, m);
    }
  }

  // ------------------------------------------------------------------ the volume ladder

  /** The lot sizes tried in turn. */
  function Ladder(want: real): (r: seq<real>)
    ensures 1 <= |r| <= 3 && r[0] == want
    ensures forall i, j :: 0 <= i < j < |r| ==> r[i] > r[j]
  {
    [want] + (if want > 0.02 then [0.02] else []) + (if want > 0.01 then [0.01] else [])
  }

  datatype Signal = Signal(short: bool, price: real, stop: Option<real>, tp: Option<real>, qty: Option<real>)

  /** A Python value that is neither None nor zero. */
  predicate Truthy(x: Option<real>) {
    x.Some? && x.value != 0.0
  }

  function QuoteOf(sig: Signal, serverTp: bool): Quote {
    Quote(sig.short,
          if Truthy(sig.stop) then Some(Abs(sig.price - sig.stop.value)) else None,
          if Truthy(sig.tp) && serverTp then Some(Abs(sig.price - sig.tp.value)) else None)
  }

  function FirstRequest(q: Quote, volume: real, px: real, filling: Filling): Request {
    Anchored(q, Request(volume, px, 0.0, 0.0, filling), px)
  }

  /** The test for trying a smaller volume: the digits 10019 anywhere in the error text. */
  predicate TriesSmaller(world: World, outcome: Outcome) {
    outcome.Raised? && (outcome.retcode == Some(NO_MONEY) || world.mentions(outcome.at))
  }

  /** How one rung is sent: first send number, volume, position list. */
  type Attempt = (nat, real, seq<Position>) -> Trace

  /** The rungs of the ladder from here on, the next send being number `k`. */
  function Climb(rung: Attempt, smaller: Outcome -> bool, k: nat, ladder: seq<real>, book: seq<Position>): Trace
    requires ladder != []
    decreases |ladder|
  {
    var t := rung(k, ladder[0], book);
    if |ladder| == 1 || !smaller(t.outcome) then t
    else Joined(t, Climb(rung, smaller, k + |t.log|, ladder[1..], t.book))
  }

  function Joined(t: Trace, u: Trace): Trace {
    Trace(u.outcome, t.log + u.log, t.sleeps + u.sleeps, u.book)
  }

  /** What an entry keeps fixed over its rungs. */
  datatype Entry = Entry(pol: RetryPolicy, quote: Quote, world: World, px: real, filling: Filling) {
    function Rung(k: nat, volume: real, book: seq<Position>): Trace {
      SendWithPolicy(pol, true, Some(quote), world, k, FirstRequest(quote, volume, px, filling), book)
    }

    function Rungs(): Attempt {
      (k: nat, volume: real, book: seq<Position>) => Rung(k, volume, book)
    }

    function Smaller(): Outcome -> bool {
      (outcome: Outcome) => TriesSmaller(world, outcome)
    }
  }

  function Want(sig: Signal, defaultQty: real): real {
    if Truthy(sig.qty) then sig.qty.value else defaultQty
  }

  /** `_open` in market mode, given the tick price of its side and the filling mode. */
  function Open(pol: RetryPolicy, sig: Signal, serverTp: bool, defaultQty: real, world: World, px: real,
                filling: Filling, book: seq<Position>): Trace
  {
    var e := Entry(pol, QuoteOf(sig, serverTp), world, px, filling);
    Climb(e.Rungs(), e.Smaller(), 0, Ladder(Want(sig, defaultQty)), book)
  }

  lemma {:induction false} FillsConcat(a: seq<Sent>, b: seq<Sent>)
    ensures Fills(a + b) == Fills(a) + Fills(b)
  {
    if a == [] {
      assert a + b == b;
    } else {
      assert (a + b)[1..] == a[1..] + b;
      FillsConcat(a[1..], b);
    }
  }

  /** Returned exactly on one fill, raised exactly on none and with the position list unchanged. */
  predicate Exact(t: Trace, book: seq<Position>) {
    && (t.outcome.Returned? <==> Fills(t.log) == 1)
    && (t.outcome.Raised? <==> Fills(t.log) == 0)
    && (t.outcome.Raised? ==> t.book == book)
  }

  ghost predicate ExactRungs(rung: Attempt, book: seq<Position>) {
    forall i: nat, v :: Exact(rung(i, v, book), book)
  }

  ghost predicate OnlyRaised(smaller: Outcome -> bool) {
    forall o :: smaller(o) ==> o.Raised?
  }

  lemma {:induction false} ClimbExact(rung: Attempt, smaller: Outcome -> bool, k: nat, ladder: seq<real>,
                                      book: seq<Position>)
    requires ladder != []
    requires ExactRungs(rung, book) && OnlyRaised(smaller)
    ensures Exact(Climb(rung, smaller, k, ladder, book), book)
    decreases |ladder|
  {
    var volume := ladder[0];
    var t := rung(k, volume, book);
    assert Exact(rung(k, volume, book), book);
    if |ladder| > 1 && smaller(t.outcome) {
      var u := Climb(rung, smaller, k + |t.log|, ladder[1..], t.book);
      ClimbExact(rung, smaller, k + |t.log|, ladder[1..], book);
      FillsConcat(t.log, u.log);
    }
  }

  function MostSends(rungs: nat, each: nat): nat {
    if rungs == 0 then 0 else each + MostSends(rungs - 1, each)
  }

  /** At most `each` sends, all good requests for this volume. */
  predicate GoodRung(q: Quote, each: nat, t: Trace, volume: real) {
    1 <= |t.log| <= each && GoodLog(q, t.log, volume, volume)
  }

  ghost predicate GoodRungs(q: Quote, each: nat, rung: Attempt) {
    forall i: nat, v, b :: GoodRung(q, each, rung(i, v, b), v)
  }

  lemma {:induction false} ClimbGood(q: Quote, each: nat, rung: Attempt, smaller: Outcome -> bool, k: nat,
                                     ladder: seq<real>, book: seq<Position>)
    requires ladder != []
    requires forall i, j :: 0 <= i < j < |ladder| ==> ladder[i] > ladder[j]
    requires GoodRungs(q, each, rung)
    ensures var log := Climb(rung, smaller, k, ladder, book).log;
            |log| <= MostSends(|ladder|, each) && GoodLog(q, log, ladder[0], ladder[|ladder| - 1])
    decreases |ladder|
  {
    var t := rung(k, ladder[0], book);
    assert GoodRung(q, each, t, ladder[0]);
    if |ladder| > 1 && smaller(t.outcome) {
      ClimbGood(q, each, rung, smaller, k + |t.log|, ladder[1..], t.book);
      GoodConcat(q, t.log, Climb(rung, smaller, k + |t.log|, ladder[1..], t.book).log,
                 ladder[0], ladder[0], ladder[1], ladder[|ladder| - 1]);
    }
  }

  lemma RungGood(e: Entry, k: nat, volume: real, book: seq<Position>)
    ensures GoodRung(e.quote, Budget(e.pol) + 1, e.Rung(k, volume, book), volume)
  {
    var req := FirstRequest(e.quote, volume, e.px, e.filling);
    var c := NewCall(e.pol, true, Some(e.quote), e.world, book);
    SendBounded(c, k, Start(req), book);
    SendRequests(c, k, Start(req), book);
  }

  lemma RungExact(e: Entry, k: nat, volume: real, book: seq<Position>)
    requires Honest(e.world, Tickets(book)) && FillsVisible(e.world)
    ensures Exact(e.Rung(k, volume, book), book)
  {
    GuardedExact(e.pol, Some(e.quote), e.world, k, FirstRequest(e.quote, volume, e.px, e.filling), book);
  }

  /** An entry fills at most once over the whole ladder, returns exactly when it filled, sends at
      most 3 * (maxRetries + 1) requests, never raises the volume on the way, and every request of
      every rung and refresh carries the signal's own risk distances. */
  lemma OpenAtMostOnce(pol: RetryPolicy, sig: Signal, serverTp: bool, defaultQty: real, world: World,
                       px: real, filling: Filling, book: seq<Position>)
    requires Honest(world, Tickets(book)) && FillsVisible(world)
    ensures var t := Open(pol, sig, serverTp, defaultQty, world, px, filling, book);
            && Fills(t.log) <= 1
            && (t.outcome.Returned? <==> Fills(t.log) == 1)
            && |t.log| <= 3 * (Budget(pol) + 1)
            && VolumesFall(t.log)
            && forall i :: 0 <= i < |t.log| ==>
                 t.log[i].request.volume <= Want(sig, defaultQty) && KeepsRisk(QuoteOf(sig, serverTp), t.log[i].request)
  {
    var e, ladder := Entry(pol, QuoteOf(sig, serverTp), world, px, filling), Ladder(Want(sig, defaultQty));
    var rung, each := e.Rungs(), Budget(pol) + 1;
    forall i: nat, v ensures Exact(rung(i, v, book), book) {
      RungExact(e, i, v, book);
    }
    forall i: nat, v, b ensures GoodRung(e.quote, each, rung(i, v, b), v) {
      RungGood(e, i, v, b);
    }
    ClimbExact(rung, e.Smaller(), 0, ladder, book);
    ClimbGood(e.quote, each, rung, e.Smaller(), 0, ladder, book);
    assert MostSends(1, each) == each;
    assert MostSends(2, each) == 2 * each;
    assert MostSends(3, each) == 3 * each;
  }
}
