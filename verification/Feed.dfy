/** The live feed: a loop that polls the terminal for its latest one-minute bars, passes on the closed
    ones it has not passed on yet, and reconnects when the terminal stops answering. */
module Feed {
  import opened Prelude
  import opened Models

  const BAR_SECONDS := 60
  const RECONNECT_AFTER := 3
  const STALE_MARKET_CLOSED := 54000   // fifteen hours

  /** `offset` is the broker's distance from UTC if it is given; a zero `stale` turns the watchdog off. */
  datatype Settings = Settings(offset: Option<int>, warmupBars: nat, maxReconnects: Option<int>, stale: int)

  /** Bars still to be asked for at once, start of the replay that is being timed, and whether that
      has been done. */
  datatype Warmup = Warmup(pending: nat, started: Option<int>, timed: bool)

  datatype State = State(offset: Option<int>, last: Option<int>, streak: nat, warmup: Warmup, fails: nat, newBarAt: int)

  function Init(cfg: Settings, now: int): State {
    State(cfg.offset, None, 0, Warmup(cfg.warmupBars, None, false), 0, if cfg.stale != 0 then now else 0)
  }

  /** The clock as one round of the loop reads it. */
  datatype Clock = Clock(lock: int, warm: int, emitted: int, replayed: int, watch: int, recent: int, restart: int)

  /** What the terminal answers in one round: bars in broker time, the last one still forming, and
      whether a reconnect would succeed. */
  datatype Io = Io(rates: Option<seq<Candle>>, reconnects: bool, clock: Clock)

  /** Bars passed on, in broker time; outcomes of reconnect attempts; whether the loop gave up. */
  datatype Round = Round(s: State, out: seq<Candle>, attempts: seq<bool>, raised: bool)

  /** How many bars are asked for. */
  function Count(s: State): nat {
    s.warmup.pending + 3
  }

  // ------------------------------------------------------------------ one round

  function Reconnected(cfg: Settings, s: State, ok: bool): Round {
    if ok then Round(s.(fails := 0), [], [true], false)
    else Round(s.(fails := s.fails + 1), [], [false], cfg.maxReconnects.Some? && s.fails + 1 >= cfg.maxReconnects.value)
  }

  function NoRates(cfg: Settings, s: State, io: Io): Round {
    var s1 := s.(streak := s.streak + 1);
    if s1.streak < RECONNECT_AFTER then Round(s1, [], [], false)
    else Reconnected(cfg, if io.reconnects then s1.(streak := 0) else s1, io.reconnects)
  }

  predicate MarketClosed(forming: int, now: int) {
    forming - now > STALE_MARKET_CLOSED || now - forming > STALE_MARKET_CLOSED
  }

  function Locked(s: State, forming: int, now: int): State {
    if s.offset.Some? then s else s.(offset := Some(RoundHalfEven(forming - now, 3600) * 3600))
  }

  /** The bars later than the last one passed on, each compared with the one before it. */
  function Unseen(last: Option<int>, closed: seq<Candle>): seq<Candle>
    decreases |closed|
  {
    if closed == [] then []
    else if last.Some? && closed[0].ts <= last.value then Unseen(last, closed[1..])
    else [closed[0]] + Unseen(Some(closed[0].ts), closed[1..])
  }

  function LastTime(last: Option<int>, out: seq<Candle>): Option<int> {
    if out == [] then last else Some(out[|out| - 1].ts)
  }

  function WarmedUp(w: Warmup, now: int): Warmup {
    if w.pending == 0 then w else Warmup(0, if w.timed then w.started else Some(now), true)
  }

  /** After a slow replay one more long request covers the bars that closed meanwhile. */
  function CaughtUp(w: Warmup, now: int): Warmup {
    if w.started.None? then w
    else
      var elapsed := now - w.started.value;
      Warmup(if elapsed >= BAR_SECONDS then elapsed / BAR_SECONDS + 1 else w.pending, None, w.timed)
  }

  predicate Suspect(cfg: Settings, s: State, clock: Clock) {
    && cfg.stale != 0 && s.offset.Some? && s.last.Some?
    && clock.watch - s.newBarAt > cfg.stale
    && clock.recent - (s.last.value - s.offset.value) <= STALE_MARKET_CLOSED
  }

  function Watched(cfg: Settings, s: State, io: Io): Round {
    if !Suspect(cfg, s, io.clock) then Round(s, [], [], false)
    else
      var r := Reconnected(cfg, s, io.reconnects);
      r.(s := if r.raised then r.s else r.s.(newBarAt := io.clock.restart))
  }

  function Passed(cfg: Settings, s: State, closed: seq<Candle>, clock: Clock): State {
    var out := Unseen(s.last, closed);
    s.(last := LastTime(s.last, out), warmup := CaughtUp(WarmedUp(s.warmup, clock.warm), clock.replayed),
       newBarAt := if cfg.stale != 0 && out != [] then clock.emitted else s.newBarAt)
  }

  /** Whether a round gets as far as passing bars on. */
  predicate Delivers(s: State, io: Io) {
    && io.rates.Some? && |io.rates.value| >= 2
    && (s.offset.None? ==> !MarketClosed(io.rates.value[|io.rates.value| - 1].ts, io.clock.lock))
  }

  function Poll(cfg: Settings, s: State, io: Io): Round {
    if io.rates.None? || |io.rates.value| < 2 then NoRates(cfg, s, io)
    else
      var rates := io.rates.value;
      var n := |rates| - 1;
      var s1 := s.(streak := 0);
      if !Delivers(s, io) then Round(s1, [], [], false)
      else
        var s2 := Passed(cfg, Locked(s1, rates[n].ts, io.clock.lock), rates[..n], io.clock);
        Watched(cfg, s2, io).(out := Unseen(s.last, rates[..n]))
  }

  // ------------------------------------------------------------------ the terminal

  predicate Ascending(bars: seq<Candle>) {
    forall i, j :: 0 <= i < j < |bars| ==> bars[i].ts < bars[j].ts
  }

  /** In one round bar number `forming` is the one still forming and the terminal gives the last
      `got` bars up to it, or fails. */
  datatype Fetch = Fetch(forming: nat, got: nat)

  datatype Tick = Tick(fetch: Option<Fetch>, reconnects: bool, clock: Clock)

  predicate Possible(market: seq<Candle>, t: Tick) {
    t.fetch.Some? ==> t.fetch.value.forming < |market| && t.fetch.value.got <= t.fetch.value.forming + 1
  }

  function IoOf(market: seq<Candle>, t: Tick): Io
    requires Possible(market, t)
  {
    Io(if t.fetch.None? then None
       else Some(market[t.fetch.value.forming + 1 - t.fetch.value.got..t.fetch.value.forming + 1]),
       t.reconnects, t.clock)
  }

  predicate AllPossible(market: seq<Candle>, ticks: seq<Tick>) {
    forall i :: 0 <= i < |ticks| ==> Possible(market, ticks[i])
  }

  /** The loop so far: its state, everything passed on, every reconnect attempt, and whether it has
      given up. */
  datatype Loop = Loop(s: State, out: seq<Candle>, attempts: seq<bool>, raised: bool)

  function Next(cfg: Settings, l: Loop, io: Io): Loop {
    if l.raised then l
    else
      var r := Poll(cfg, l.s, io);
      Loop(r.s, l.out + r.out, l.attempts + r.attempts, r.raised)
  }

  function Run(cfg: Settings, now: int, market: seq<Candle>, ticks: seq<Tick>): Loop
    requires AllPossible(market, ticks)
    decreases |ticks|
  {
    if ticks == [] then Loop(Init(cfg, now), [], [], false)
    else Next(cfg, Run(cfg, now, market, ticks[..|ticks| - 1]), IoOf(market, ticks[|ticks| - 1]))
  }

  // ------------------------------------------------------------------ what one fetch delivers

  /** How many bars of the market are no later than `last`. */
  function Upto(market: seq<Candle>, last: Option<int>): (n: nat)
    ensures n <= |market|
    decreases |market|
  {
    if market == [] || last.None? then 0
    else if market[|market| - 1].ts <= last.value then |market|
    else Upto(market[..|market| - 1], last)
  }

  lemma {:induction false} UptoExact(market: seq<Candle>, last: Option<int>, i: nat)
    requires Ascending(market) && i < |market|
    ensures i < Upto(market, last) <==> last.Some? && market[i].ts <= last.value
    decreases |market|
  {
    var n := |market| - 1;
    if last.Some? && market[n].ts > last.value && i < n {
      UptoExact(market[..n], last, i);
    }
  }

  function Larger(a: nat, b: nat): nat {
    if a >= b then a else b
  }

  /** Of bars a..b the ones after the first `p` are new. */
  lemma {:induction false} UnseenSlice(market: seq<Candle>, last: Option<int>, a: nat, b: nat)
    requires Ascending(market) && a <= b <= |market|
    ensures var p := Upto(market, last);
            Unseen(last, market[a..b]) == if Larger(a, p) <= b then market[Larger(a, p)..b] else []
    decreases b - a
  {
    if a < b {
      var closed := market[a..b];
      assert closed[1..] == market[a + 1..b];
      UptoExact(market, last, a);
      if last.Some? && market[a].ts <= last.value {
        UnseenSlice(market, last, a + 1, b);
      } else {
        UnseenSlice(market, Some(market[a].ts), a + 1, b);
        UptoIs(market, a);
        assert [market[a]] + market[a + 1..b] == market[a..b];
      }
    }
  }

  /** Up to and including bar `i` itself. */
  lemma {:induction false} UptoIs(market: seq<Candle>, i: nat)
    requires Ascending(market) && i < |market|
    ensures Upto(market, Some(market[i].ts)) == i + 1
  {
    UptoExact(market, Some(market[i].ts), i);
    if i + 1 < |market| {
      UptoExact(market, Some(market[i].ts), i + 1);
    }
  }

  /** Number of bars already seen, in terms of what has been passed on last. */
  function Reached(market: seq<Candle>, l: Loop): nat {
    Upto(market, l.s.last)
  }

  /** Bars that this round skips: closed since, but no longer within what the terminal gave. */
  function Skipped(market: seq<Candle>, l: Loop, t: Tick): nat
    requires Possible(market, t)
  {
    if l.raised || !Delivers(l.s, IoOf(market, t)) then 0 else SkippedBy(market, l.s.last, t.fetch.value)
  }

  function SkippedBy(market: seq<Candle>, last: Option<int>, f: Fetch): nat
    requires f.got <= f.forming + 1
  {
    var from, p := f.forming + 1 - f.got, Upto(market, last);
    if last.Some? && from > p then from - p else 0
  }

  function Missed(cfg: Settings, now: int, market: seq<Candle>, ticks: seq<Tick>): nat
    requires AllPossible(market, ticks)
    decreases |ticks|
  {
    if ticks == [] then 0
    else
      var most := ticks[..|ticks| - 1];
      Missed(cfg, now, market, most) + Skipped(market, Run(cfg, now, market, most), ticks[|ticks| - 1])
  }

  /** Everything passed on is a bar of the market, in order, the last of them bar p - 1; between the
      first and the last there are exactly `missed` more. */
  ghost predicate Tally(market: seq<Candle>, out: seq<Candle>, p: nat, missed: nat) {
    && p <= |market| && Ascending(out)
    && (out == [] ==> missed == 0)
    && (out != [] ==>
          && |out| + missed <= p
          && out[|out| - 1] == market[p - 1]
          && out[0] == market[p - |out| - missed]
          && (missed == 0 ==> out == market[p - |out|..p]))
  }

  ghost predicate Account(market: seq<Candle>, l: Loop, missed: nat) {
    (l.s.last.None? <==> l.out == []) && Tally(market, l.out, Reached(market, l), missed)
  }

  lemma WatchedKeeps(cfg: Settings, s: State, io: Io)
    ensures var r := Watched(cfg, s, io); r.s.last == s.last && r.s.offset == s.offset
  {
  }

  /** What a round passes on. */
  lemma {:induction false} PollOut(cfg: Settings, s: State, io: Io)
    ensures var r := Poll(cfg, s, io);
            && r.out == (if Delivers(s, io) then Unseen(s.last, io.rates.value[..|io.rates.value| - 1]) else [])
            && r.s.last == LastTime(s.last, r.out)
            && (s.offset.Some? ==> r.s.offset == s.offset)
            && (r.out != [] ==> r.s.offset.Some?)
  {
    if Delivers(s, io) {
      var n := |io.rates.value| - 1;
      WatchedKeeps(cfg, Passed(cfg, Locked(s.(streak := 0), io.rates.value[n].ts, io.clock.lock), io.rates.value[..n],
                               io.clock), io);
    }
  }

  lemma {:induction false} FetchDelivers(market: seq<Candle>, last: Option<int>, f: Fetch)
    requires Ascending(market) && 1 <= f.got <= f.forming + 1 <= |market|
    ensures var from := Larger(f.forming + 1 - f.got, Upto(market, last));
            var out := Unseen(last, market[f.forming + 1 - f.got..f.forming]);
            && out == (if from <= f.forming then market[from..f.forming] else [])
            && (out != [] ==> Upto(market, LastTime(last, out)) == f.forming)
  {
    var a, b := f.forming + 1 - f.got, f.forming;
    UnseenSlice(market, last, a, b);
    if Larger(a, Upto(market, last)) < b {
      UptoIs(market, b - 1);
    }
  }

  lemma {:induction false} AppendAscends(market: seq<Candle>, out: seq<Candle>, p: nat, m: nat, b: nat)
    requires Ascending(market) && p <= m < b <= |market| && Ascending(out)
    requires out != [] ==> p >= 1 && out[|out| - 1] == market[p - 1]
    ensures Ascending(out + market[m..b])
  {
    var all := out + market[m..b];
    forall i, j | 0 <= i < j < |all| ensures all[i].ts < all[j].ts {
      if i < |out| <= j {
        assert i < |out| - 1 ==> out[i].ts < out[|out| - 1].ts;
        assert all[j] == market[m + j - |out|];
      }
    }
  }

  lemma {:induction false} TallyStarts(market: seq<Candle>, m: nat, b: nat)
    requires Ascending(market) && m < b <= |market|
    ensures Tally(market, market[m..b], b, 0)
  {
    assert market[m..b] == market[b - (b - m)..b];
  }

  lemma {:induction false} TallyContinues(market: seq<Candle>, out: seq<Candle>, p: nat, missed: nat, m: nat, b: nat)
    requires Ascending(market) && Tally(market, out, p, missed) && out != [] && p <= m < b <= |market|
    ensures Tally(market, out + market[m..b], b, missed + (m - p))
  {
    AppendAscends(market, out, p, m, b);
    Stitch(market, out, p, m, b);
    var all := out + market[m..b];
    assert |all| == |out| + (b - m) && all[|all| - 1] == market[b - 1] && all[0] == out[0];
  }

  lemma {:induction false} Stitch(market: seq<Candle>, out: seq<Candle>, p: nat, m: nat, b: nat)
    requires |out| <= p <= m < b <= |market|
    ensures m == p && out == market[p - |out|..p] ==> out + market[m..b] == market[b - (|out| + (b - m))..b]
  {
  }

  lemma {:induction false} TallyGrows(market: seq<Candle>, out: seq<Candle>, p: nat, missed: nat, m: nat, b: nat,
                                      more: seq<Candle>)
    requires Ascending(market) && Tally(market, out, p, missed) && p <= m < b <= |market| && more == market[m..b]
    ensures Tally(market, out + more, b, missed + if out == [] then 0 else m - p)
  {
    if out == [] {
      assert out + more == more;
      TallyStarts(market, m, b);
    } else {
      TallyContinues(market, out, p, missed, m, b);
    }
  }

  /** The tally after bars a..b have been given, of which the first `p` are known. */
  lemma {:induction false} GivenTally(market: seq<Candle>, out: seq<Candle>, p: nat, missed: nat, a: nat, b: nat,
                                      more: seq<Candle>)
    requires Ascending(market) && Tally(market, out, p, missed) && a < b <= |market|
    requires more == if Larger(a, p) < b then market[Larger(a, p)..b] else []
    ensures Tally(market, out + more, if more == [] then p else b, missed + if out != [] && a > p then a - p else 0)
  {
    if Larger(a, p) < b {
      TallyGrows(market, out, p, missed, Larger(a, p), b, more);
    } else {
      assert out + more == out;
    }
  }

  /** The bars a round passes on. */
  function Delivered(market: seq<Candle>, s: State, t: Tick): seq<Candle>
    requires Possible(market, t)
  {
    if !Delivers(s, IoOf(market, t)) then []
    else
      var f := t.fetch.value;
      Unseen(s.last, market[f.forming + 1 - f.got..f.forming])
  }

  lemma {:induction false} PollDelivers(cfg: Settings, market: seq<Candle>, s: State, t: Tick)
    requires Possible(market, t)
    ensures var r := Poll(cfg, s, IoOf(market, t));
            r.out == Delivered(market, s, t) && r.s.last == LastTime(s.last, r.out)
  {
    PollOut(cfg, s, IoOf(market, t));
    if Delivers(s, IoOf(market, t)) {
      var a, b := t.fetch.value.forming + 1 - t.fetch.value.got, t.fetch.value.forming;
      assert market[a..b + 1][..b - a] == market[a..b];
    }
  }

  /** One fetch passes on the bars closed by then, from the first not yet passed on or, failing that, the
      first the terminal gave; never the one still forming. */
  lemma {:induction false} RoundDelivers(cfg: Settings, market: seq<Candle>, s: State, t: Tick)
    requires Ascending(market) && Possible(market, t) && Delivers(s, IoOf(market, t))
    ensures var from := Larger(t.fetch.value.forming + 1 - t.fetch.value.got, Upto(market, s.last));
            Poll(cfg, s, IoOf(market, t)).out ==
            if from <= t.fetch.value.forming then market[from..t.fetch.value.forming] else []
  {
    var more := Delivered(market, s, t);
    FetchDelivers(market, s.last, t.fetch.value);
    PollDelivers(cfg, market, s, t);
    assert Poll(cfg, s, IoOf(market, t)).out == more;
  }

  lemma {:induction false} NextDelivers(cfg: Settings, market: seq<Candle>, l: Loop, t: Tick)
    requires Possible(market, t) && !l.raised
    ensures var l', more := Next(cfg, l, IoOf(market, t)), Delivered(market, l.s, t);
            l'.out == l.out + more && l'.s.last == LastTime(l.s.last, more)
  {
    PollDelivers(cfg, market, l.s, t);
  }

  /** `more` is what a fetch of bars a..b leaves to pass on, and `skipped` what it no longer held. */
  predicate Slice(market: seq<Candle>, l: Loop, a: nat, b: nat, more: seq<Candle>, skipped: nat) {
    var p := Reached(market, l);
    && a < b < |market|
    && more == (if Larger(a, p) < b then market[Larger(a, p)..b] else [])
    && Upto(market, LastTime(l.s.last, more)) == (if more == [] then p else b)
    && skipped == (if l.s.last.Some? && a > p then a - p else 0)
  }

  lemma {:induction false} DeliveredIs(market: seq<Candle>, l: Loop, t: Tick)
    returns (a: nat, b: nat, more: seq<Candle>, skipped: nat)
    requires Ascending(market) && Possible(market, t) && !l.raised && Delivers(l.s, IoOf(market, t))
    ensures a == t.fetch.value.forming + 1 - t.fetch.value.got && b == t.fetch.value.forming
    ensures more == Delivered(market, l.s, t) && skipped == Skipped(market, l, t)
    ensures Slice(market, l, a, b, more, skipped)
  {
    a, b := t.fetch.value.forming + 1 - t.fetch.value.got, t.fetch.value.forming;
    more, skipped := Delivered(market, l.s, t), Skipped(market, l, t);
    FetchDelivers(market, l.s.last, t.fetch.value);
  }

  lemma {:induction false} SliceAccounts(market: seq<Candle>, l: Loop, missed: nat, a: nat, b: nat, more: seq<Candle>,
                                         skipped: nat, l': Loop)
    requires Ascending(market) && Account(market, l, missed) && Slice(market, l, a, b, more, skipped)
    requires l'.out == l.out + more && l'.s.last == LastTime(l.s.last, more)
    ensures Account(market, l', missed + skipped)
  {
    GivenTally(market, l.out, Reached(market, l), missed, a, b, more);
  }

  lemma {:induction false} DeliveryAccounts(market: seq<Candle>, l: Loop, t: Tick, missed: nat, l': Loop)
    requires Ascending(market) && Possible(market, t) && Account(market, l, missed) && !l.raised
             && Delivers(l.s, IoOf(market, t))
    requires l'.out == l.out + Delivered(market, l.s, t) && l'.s.last == LastTime(l.s.last, Delivered(market, l.s, t))
    ensures Account(market, l', missed + Skipped(market, l, t))
  {
    var a, b, more, skipped := DeliveredIs(market, l, t);
    SliceAccounts(market, l, missed, a, b, more, skipped, l');
  }

  lemma {:induction false} RunAccounts(cfg: Settings, now: int, market: seq<Candle>, ticks: seq<Tick>)
    requires Ascending(market) && AllPossible(market, ticks)
    ensures Account(market, Run(cfg, now, market, ticks), Missed(cfg, now, market, ticks))
    decreases |ticks|
  {
    if ticks != [] {
      var most, t := ticks[..|ticks| - 1], ticks[|ticks| - 1];
      RunAccounts(cfg, now, market, most);
      var l, l' := Run(cfg, now, market, most), Run(cfg, now, market, ticks);
      if !l.raised {
        NextDelivers(cfg, market, l, t);
        if Delivers(l.s, IoOf(market, t)) {
          DeliveryAccounts(market, l, t, Missed(cfg, now, market, most), l');
        } else {
          assert l.out + [] == l.out;
        }
      }
    }
  }

  predicate StretchAt(market: seq<Candle>, out: seq<Candle>, i: nat) {
    i + |out| <= |market| && out == market[i..i + |out|]
  }

  /** `out` is a stretch of the market without a gap. */
  ghost predicate Stretch(market: seq<Candle>, out: seq<Candle>) {
    exists i :: StretchAt(market, out, i)
  }

  lemma {:induction false} StretchExact(market: seq<Candle>, out: seq<Candle>, p: nat, missed: nat)
    requires Ascending(market) && Tally(market, out, p, missed)
    ensures Stretch(market, out) <==> missed == 0
  {
    if missed == 0 {
      assert StretchAt(market, out, if out == [] then 0 else p - |out|);
    } else if i :| StretchAt(market, out, i) {
      NothingMissedIn(market, out, p, missed, i);
    }
  }

  lemma {:induction false} NothingMissedIn(market: seq<Candle>, out: seq<Candle>, p: nat, missed: nat, i: nat)
    requires Ascending(market) && Tally(market, out, p, missed) && StretchAt(market, out, i)
    ensures missed == 0
  {
    if out != [] {
      assert out[0] == market[i] && out[|out| - 1] == market[i + |out| - 1];
      SameTimeSameBar(market, i, p - |out| - missed);
      SameTimeSameBar(market, i + |out| - 1, p - 1);
    }
  }

  /** In every run bars come in strictly increasing time, and every bar from the first to the last that
      came has come exactly once if and only if no round skipped one. */
  lemma {:induction false} ExactlyOnce(cfg: Settings, now: int, market: seq<Candle>, ticks: seq<Tick>)
    requires Ascending(market) && AllPossible(market, ticks)
    ensures var out := Run(cfg, now, market, ticks).out;
            Ascending(out) && (Stretch(market, out) <==> Missed(cfg, now, market, ticks) == 0)
  {
    RunAccounts(cfg, now, market, ticks);
    var l := Run(cfg, now, market, ticks);
    StretchExact(market, l.out, Reached(market, l), Missed(cfg, now, market, ticks));
  }

  lemma SameTimeSameBar(market: seq<Candle>, i: nat, j: nat)
    requires Ascending(market) && i < |market| && j < |market| && market[i].ts == market[j].ts
    ensures i == j
  {
  }

  /** The terminal gives as many bars as it is asked for, or all it has. */
  predicate InFull(s: State, f: Fetch) {
    f.got == if Count(s) <= f.forming + 1 then Count(s) else f.forming + 1
  }

  /** Provided the terminal gives as many bars as it is asked for, or all it has, a round skips none
      exactly when at most count - 1 bars have closed since the last one passed on. */
  lemma {:induction false} SkipsNone(market: seq<Candle>, l: Loop, t: Tick)
    requires Possible(market, t) && !l.raised && l.s.last.Some? && Delivers(l.s, IoOf(market, t))
    requires InFull(l.s, t.fetch.value)
    ensures Skipped(market, l, t) == 0 <==> t.fetch.value.forming - Reached(market, l) <= Count(l.s) - 1
  {
  }

  /** The bar still forming at the latest round that got as far as passing bars on. */
  function LastForming(cfg: Settings, now: int, market: seq<Candle>, ticks: seq<Tick>): Option<nat>
    requires AllPossible(market, ticks)
    decreases |ticks|
  {
    if ticks == [] then None
    else
      var most, t := ticks[..|ticks| - 1], ticks[|ticks| - 1];
      var l := Run(cfg, now, market, most);
      if !l.raised && Delivers(l.s, IoOf(market, t)) then Some(t.fetch.value.forming)
      else LastForming(cfg, now, market, most)
  }

  /** Every round that passes bars on gets what it asks for, and at most count - 1 bars have closed
      since the round before it that did. */
  predicate Served(cfg: Settings, now: int, market: seq<Candle>, ticks: seq<Tick>)
    requires AllPossible(market, ticks)
    decreases |ticks|
  {
    ticks != [] ==>
      var most, t := ticks[..|ticks| - 1], ticks[|ticks| - 1];
      var l, b := Run(cfg, now, market, most), LastForming(cfg, now, market, most);
      && Served(cfg, now, market, most)
      && (!l.raised && Delivers(l.s, IoOf(market, t)) ==>
            && InFull(l.s, t.fetch.value)
            && (b.Some? ==> 0 <= t.fetch.value.forming - b.value <= Count(l.s) - 1))
  }

  /** The loop stands right where the terminal last stood. */
  predicate StandsAt(market: seq<Candle>, l: Loop, b: Option<nat>) {
    (l.s.last.None? <==> b.None?) && (b.Some? ==> Reached(market, l) == b.value)
  }

  lemma {:induction false} ServedStep(market: seq<Candle>, l: Loop, t: Tick, b: Option<nat>, l': Loop)
    requires Ascending(market) && Possible(market, t) && !l.raised && Delivers(l.s, IoOf(market, t))
    requires StandsAt(market, l, b) && InFull(l.s, t.fetch.value)
    requires b.Some? ==> 0 <= t.fetch.value.forming - b.value <= Count(l.s) - 1
    requires l'.s.last == LastTime(l.s.last, Delivered(market, l.s, t))
    ensures Skipped(market, l, t) == 0 && StandsAt(market, l', Some(t.fetch.value.forming))
  {
    var a, b, more, skipped := DeliveredIs(market, l, t);
    if l.s.last.Some? {
      SkipsNone(market, l, t);
    }
  }

  lemma {:induction false} ServedMissesNone(cfg: Settings, now: int, market: seq<Candle>, ticks: seq<Tick>)
    requires Ascending(market) && AllPossible(market, ticks) && Served(cfg, now, market, ticks)
    ensures Missed(cfg, now, market, ticks) == 0
    ensures StandsAt(market, Run(cfg, now, market, ticks), LastForming(cfg, now, market, ticks))
    decreases |ticks|
  {
    if ticks != [] {
      var most, t := ticks[..|ticks| - 1], ticks[|ticks| - 1];
      ServedMissesNone(cfg, now, market, most);
      var l, l' := Run(cfg, now, market, most), Run(cfg, now, market, ticks);
      if !l.raised {
        NextDelivers(cfg, market, l, t);
        if Delivers(l.s, IoOf(market, t)) {
          ServedStep(market, l, t, LastForming(cfg, now, market, most), l');
        }
      }
    }
  }

  /** Over a whole run: if each round gets what it asks for and at most count - 1 bars close between one
      successful round and the next, then every bar from the first that came up to the one that was
      forming at the latest successful round has come, exactly once and in order. */
  lemma {:induction false} NothingSkipped(cfg: Settings, now: int, market: seq<Candle>, ticks: seq<Tick>)
    requires Ascending(market) && AllPossible(market, ticks) && Served(cfg, now, market, ticks)
    ensures var out, b := Run(cfg, now, market, ticks).out, LastForming(cfg, now, market, ticks);
            && (b.None? <==> out == [])
            && (b.Some? ==> |out| <= b.value <= |market| && out == market[b.value - |out|..b.value])
  {
    ServedMissesNone(cfg, now, market, ticks);
    RunAccounts(cfg, now, market, ticks);
  }

  predicate Spaced(market: seq<Candle>) {
    forall i, j :: 0 <= i < j < |market| ==> market[j].ts >= market[i].ts + BAR_SECONDS
  }

  lemma {:induction false} SpacedBy(market: seq<Candle>, i: nat, j: nat)
    requires Spaced(market) && i <= j < |market|
    ensures market[j].ts >= market[i].ts + BAR_SECONDS * (j - i)
    decreases j - i
  {
    if i < j {
      SpacedBy(market, i, j - 1);
    }
  }

  /** Between two moments less than `n` minutes apart at most `n` bars close. */
  lemma {:induction false} ClosedBetween(market: seq<Candle>, m: nat, m': nat, at: int, at': int, n: nat)
    requires Spaced(market) && m < m' < |market|
    requires at < market[m + 1].ts && market[m'].ts <= at'
    requires at' - at <= BAR_SECONDS * n
    ensures m' - m <= n
  {
    SpacedBy(market, m + 1, m');
  }

  /** The long request after a replay covers the bars that closed meanwhile: if at most a minute passes
      besides the replay itself, at most count - 1 of them did. */
  lemma {:induction false} CatchUpCovers(market: seq<Candle>, m: nat, m': nat, at: int, at': int, w: Warmup, s: State,
                                         replayed: int)
    requires Spaced(market) && m <= m' < |market| && (m + 1 < |market| ==> at < market[m + 1].ts)
             && market[m'].ts <= at'
    requires w.started.Some? && w.started.value <= replayed && w.pending == 0
    requires at' - at <= replayed - w.started.value + BAR_SECONDS
    requires s.warmup == CaughtUp(w, replayed)
    ensures m' - m <= Count(s) - 1
  {
    var elapsed := replayed - w.started.value;
    if m < m' {
      ClosedBetween(market, m, m', at, at', Count(s) - 1);
    }
  }

  // ------------------------------------------------------------------ times passed on

  /** The candles as passed on, in UTC. */
  function InUtc(offset: Option<int>, out: seq<Candle>): seq<Candle> {
    if offset.None? then [] else seq(|out|, i requires 0 <= i < |out| => out[i].(ts := out[i].ts - offset.value))
  }

  lemma {:induction false} OffsetStep(cfg: Settings, l: Loop, io: Io)
    requires l.out != [] ==> l.s.offset.Some?
    ensures var l' := Next(cfg, l, io);
            && (l'.out != [] ==> l'.s.offset.Some?)
            && (l.s.offset.Some? ==> l'.s.offset == l.s.offset)
            && |l.out| <= |l'.out| && l'.out[..|l.out|] == l.out
  {
    if !l.raised {
      PollOut(cfg, l.s, io);
    }
  }

  lemma {:induction false} OffsetKnown(cfg: Settings, now: int, market: seq<Candle>, ticks: seq<Tick>)
    requires AllPossible(market, ticks)
    ensures var l := Run(cfg, now, market, ticks); l.out != [] ==> l.s.offset.Some?
    decreases |ticks|
  {
    if ticks != [] {
      var most := ticks[..|ticks| - 1];
      OffsetKnown(cfg, now, market, most);
      OffsetStep(cfg, Run(cfg, now, market, most), IoOf(market, ticks[|ticks| - 1]));
    }
  }

  /** Over every run: a candle has come only if the offset is locked, and once it is it stays whatever
      comes next; so what has been passed on is never restated, and what follows is shifted by the
      same offset. */
  lemma {:induction false} OffsetLocked(cfg: Settings, now: int, market: seq<Candle>, ticks: seq<Tick>, more: seq<Tick>)
    requires AllPossible(market, ticks) && AllPossible(market, ticks + more)
    ensures var l, l' := Run(cfg, now, market, ticks), Run(cfg, now, market, ticks + more);
            && (l.out != [] ==> l.s.offset.Some?)
            && (l.s.offset.Some? ==>
                  && l'.s.offset == l.s.offset
                  && |l.out| <= |l'.out| && l'.out[..|l.out|] == l.out
                  && InUtc(l'.s.offset, l'.out)[..|l.out|] == InUtc(l.s.offset, l.out))
    decreases |more|
  {
    OffsetKnown(cfg, now, market, ticks);
    if more == [] {
      assert ticks + more == ticks;
    } else {
      var most, t := more[..|more| - 1], more[|more| - 1];
      assert (ticks + more)[..|ticks + more| - 1] == ticks + most;
      assert forall i :: 0 <= i < |ticks + most| ==> (ticks + most)[i] == (ticks + more)[i];
      assert (ticks + more)[|ticks + more| - 1] == t;
      OffsetLocked(cfg, now, market, ticks, most);
      OffsetKnown(cfg, now, market, ticks + most);
      OffsetStep(cfg, Run(cfg, now, market, ticks + most), IoOf(market, t));
      OffsetPrefix(cfg, Run(cfg, now, market, ticks), Run(cfg, now, market, ticks + most),
                   Run(cfg, now, market, ticks + more));
    }
  }

  lemma {:induction false} OffsetPrefix(cfg: Settings, l: Loop, l1: Loop, l2: Loop)
    requires l.s.offset.Some? ==>
               && l1.s.offset == l.s.offset == l2.s.offset
               && |l.out| <= |l1.out| <= |l2.out| && l1.out[..|l.out|] == l.out && l2.out[..|l1.out|] == l1.out
    ensures l.s.offset.Some? ==>
              && |l.out| <= |l2.out| && l2.out[..|l.out|] == l.out
              && InUtc(l2.s.offset, l2.out)[..|l.out|] == InUtc(l.s.offset, l.out)
  {
    if l.s.offset.Some? {
      assert l2.out[..|l.out|] == l2.out[..|l1.out|][..|l.out|];
      forall i | 0 <= i < |l.out| ensures l2.out[i] == l.out[i] {
        assert l2.out[..|l.out|][i] == l2.out[i];
      }
    }
  }

  // ------------------------------------------------------------------ reconnecting

  /** How many attempts in a row have failed, up to now. */
  function FailedInARow(attempts: seq<bool>): nat
    decreases |attempts|
  {
    if attempts == [] || attempts[|attempts| - 1] then 0 else 1 + FailedInARow(attempts[..|attempts| - 1])
  }

  lemma {:induction false} FailedSnoc(attempts: seq<bool>, ok: bool)
    ensures FailedInARow(attempts + [ok]) == if ok then 0 else FailedInARow(attempts) + 1
  {
    assert (attempts + [ok])[..|attempts|] == attempts;
  }

  predicate GivesUp(cfg: Settings, attempts: seq<bool>) {
    && attempts != [] && !attempts[|attempts| - 1]
    && cfg.maxReconnects.Some? && FailedInARow(attempts) >= cfg.maxReconnects.value
  }

  predicate Persists(cfg: Settings, l: Loop) {
    l.s.fails == FailedInARow(l.attempts) && (l.raised <==> GivesUp(cfg, l.attempts))
  }

  lemma {:induction false} PollAttempts(cfg: Settings, s: State, io: Io)
    ensures var r := Poll(cfg, s, io);
            && (r.attempts == [] || r.attempts == [io.reconnects])
            && (r.attempts == [] ==> r.s.fails == s.fails && !r.raised)
            && (r.attempts == [true] ==> r.s.fails == 0 && !r.raised)
            && (r.attempts == [false] ==>
                  && r.s.fails == s.fails + 1
                  && (r.raised <==> cfg.maxReconnects.Some? && s.fails + 1 >= cfg.maxReconnects.value))
  {
  }

  lemma {:induction false} NextPersists(cfg: Settings, l: Loop, io: Io)
    requires Persists(cfg, l)
    ensures Persists(cfg, Next(cfg, l, io))
  {
    if !l.raised {
      PollAttempts(cfg, l.s, io);
      var r := Poll(cfg, l.s, io);
      if r.attempts == [] {
        assert l.attempts + [] == l.attempts;
      } else {
        FailedSnoc(l.attempts, io.reconnects);
      }
    }
  }

  /** The loop gives up on exactly the failed reconnect that makes `maxReconnects` in a row: until it
      does, fewer have failed in a row, and without a limit it never does. */
  lemma {:induction false} ReconnectsBounded(cfg: Settings, now: int, market: seq<Candle>, ticks: seq<Tick>)
    requires AllPossible(market, ticks)
    ensures var l := Run(cfg, now, market, ticks);
            && l.s.fails == FailedInARow(l.attempts)
            && (l.raised <==> GivesUp(cfg, l.attempts))
            && (cfg.maxReconnects.Some? && cfg.maxReconnects.value >= 1 && !l.raised ==>
                  FailedInARow(l.attempts) < cfg.maxReconnects.value)
    decreases |ticks|
  {
    if ticks != [] {
      var most := ticks[..|ticks| - 1];
      ReconnectsBounded(cfg, now, market, most);
      NextPersists(cfg, Run(cfg, now, market, most), IoOf(market, ticks[|ticks| - 1]));
    }
  }

  // ------------------------------------------------------------------ the code itself

  class Mt5Feed {
    const cfg: Settings
    var offset: Option<int>
    var lastEmitted: Option<int>
    var failStreak: nat
    var pendingWarmup: nat
    var warmupStarted: Option<int>
    var warmupCatchupDone: bool
    var reconnectFails: nat
    var lastNewBarTs: int

    function Model(): State
      reads this
    {
      State(offset, lastEmitted, failStreak, Warmup(pendingWarmup, warmupStarted, warmupCatchupDone), reconnectFails,
            lastNewBarTs)
    }

    constructor (cfg: Settings, now: int)
      ensures this.cfg == cfg && Model() == Init(cfg, now)
    {
      this.cfg := cfg;
      offset, lastEmitted, failStreak := cfg.offset, None, 0;
      pendingWarmup, warmupStarted, warmupCatchupDone := cfg.warmupBars, None, false;
      reconnectFails := 0;
      lastNewBarTs := if cfg.stale != 0 then now else 0;
    }

    method TryReconnect(ok: bool) returns (attempts: seq<bool>, raised: bool)
      modifies this`reconnectFails
      ensures var r := Reconnected(cfg, old(Model()), ok);
              Model() == r.s && attempts == r.attempts && raised == r.raised
    {
      attempts, raised := [ok], false;
      if ok {
        reconnectFails := 0;
      } else {
        reconnectFails := reconnectFails + 1;
        raised := cfg.maxReconnects.Some? && reconnectFails >= cfg.maxReconnects.value;
      }
    }

    method MissPoll(io: Io) returns (attempts: seq<bool>, raised: bool)
      modifies this`failStreak, this`reconnectFails
      ensures var r := NoRates(cfg, old(Model()), io);
              Model() == r.s && attempts == r.attempts && raised == r.raised && r.out == []
    {
      failStreak := failStreak + 1;
      attempts, raised := [], false;
      if failStreak >= RECONNECT_AFTER {
        attempts, raised := TryReconnect(io.reconnects);
        if io.reconnects {
          failStreak := 0;
        }
      }
    }

    /** The loop over the closed bars of one fetch. */
    method YieldNew(closed: seq<Candle>, at: int) returns (out: seq<Candle>)
      modifies this`lastEmitted, this`lastNewBarTs
      ensures out == Unseen(old(lastEmitted), closed)
      ensures lastEmitted == LastTime(old(lastEmitted), out)
      ensures lastNewBarTs == if cfg.stale != 0 && out != [] then at else old(lastNewBarTs)
    {
      out := [];
      ghost var all := Unseen(lastEmitted, closed);
      var i := 0;
      while i < |closed|
        invariant 0 <= i <= |closed|
        invariant out + Unseen(lastEmitted, closed[i..]) == all
        invariant lastEmitted == LastTime(old(lastEmitted), out)
        invariant lastNewBarTs == if cfg.stale != 0 && out != [] then at else old(lastNewBarTs)
      {
        var bar := closed[i];
        ghost var rest := closed[i..];
        assert rest[0] == bar && rest[1..] == closed[i + 1..];
        i := i + 1;
        if lastEmitted.Some? && bar.ts <= lastEmitted.value {
          continue;
        }
        ghost var tail := Unseen(Some(bar.ts), closed[i..]);
        assert out + ([bar] + tail) == out + [bar] + tail;
        lastEmitted := Some(bar.ts);
        if cfg.stale != 0 {
          lastNewBarTs := at;
        }
        out := out + [bar];
      }
      assert out + [] == out;
    }

    method Watch(io: Io) returns (attempts: seq<bool>, raised: bool)
      modifies this`reconnectFails, this`lastNewBarTs
      ensures var r := Watched(cfg, old(Model()), io);
              Model() == r.s && attempts == r.attempts && raised == r.raised
    {
      attempts, raised := [], false;
      if cfg.stale != 0 && offset.Some? && lastEmitted.Some? && io.clock.watch - lastNewBarTs > cfg.stale
         && io.clock.recent - (lastEmitted.value - offset.value) <= STALE_MARKET_CLOSED {
        attempts, raised := TryReconnect(io.reconnects);
        if raised {
          return;
        }
        lastNewBarTs := io.clock.restart;
      }
    }

    /** Everything from the warm-up bookkeeping to the end of the replay. */
    method PassOn(closed: seq<Candle>, clock: Clock) returns (out: seq<Candle>)
      modifies this`pendingWarmup, this`warmupStarted, this`warmupCatchupDone, this`lastEmitted, this`lastNewBarTs
      ensures Model() == Passed(cfg, old(Model()), closed, clock) && out == Unseen(old(lastEmitted), closed)
    {
      if pendingWarmup > 0 {
        pendingWarmup := 0;
        if !warmupCatchupDone {
          warmupStarted := Some(clock.warm);
          warmupCatchupDone := true;
        }
      }
      out := YieldNew(closed, clock.emitted);
      if warmupStarted.Some? {
        var elapsed := clock.replayed - warmupStarted.value;
        if elapsed >= BAR_SECONDS {
          pendingWarmup := elapsed / BAR_SECONDS + 1;
        }
        warmupStarted := None;
      }
    }

    /** One round of the loop. */
    method PollOnce(io: Io) returns (out: seq<Candle>, attempts: seq<bool>, raised: bool)
      modifies this
      ensures Round(Model(), out, attempts, raised) == Poll(cfg, old(Model()), io)
    {
      out := [];
      if io.rates.None? || |io.rates.value| < 2 {
        attempts, raised := MissPoll(io);
        return;
      }
      var rates := io.rates.value;
      var forming := rates[|rates| - 1].ts;
      failStreak := 0;
      if offset.None? {
        if MarketClosed(forming, io.clock.lock) {
          return [], [], false;
        }
        offset := Some(RoundHalfEven(forming - io.clock.lock, 3600) * 3600);
      }
      out := PassOn(rates[..|rates| - 1], io.clock);
      attempts, raised := Watch(io);
    }
  }
}
