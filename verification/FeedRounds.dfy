/** One round of the feed after another, in seconds and counts. */
module FeedRounds {
  import opened Prelude
  import opened Models
  import opened Feed

  /** The nearest whole number of hours, the even one of two. */
  predicate NearestHours(diff: int, offset: int) {
    && offset % 3600 == 0 && -1800 <= diff - offset <= 1800
    && (diff - offset == 1800 || diff - offset == -1800 ==> offset / 3600 % 2 == 0)
  }

  /** Two answers in a row may be missing or have no closed bar; from the third on a reconnect is tried. */
  predicate GoesWithout(s: State, io: Io, r: Round) {
    var streak := s.streak + 1;
    && r.out == []
    && r.attempts == (if streak < 3 then [] else [io.reconnects])
    && r.s == s.(streak := if r.attempts == [true] then 0 else streak, fails := r.s.fails)
  }

  /** No offset yet, and a forming bar more than fifteen hours from now: the market is closed. */
  predicate TooFar(s: State, forming: int, now: int) {
    s.offset.None? && !(-54000 <= forming - now <= 54000)
  }

  predicate IsOffset(before: Option<int>, forming: int, now: int, after: Option<int>) {
    after.Some? && if before.Some? then after == before else NearestHours(forming - now, after.value)
  }

  /** A long request, answered, is over; the first time it is timed, and a replay of a minute or more leads to
      one more, of as many bars as minutes have begun. */
  predicate IsWarmup(w: Warmup, clock: Clock, w': Warmup) {
    var elapsed := clock.replayed - clock.warm;
    && w'.started.None?
    && (w.pending == 0 ==> w' == w)
    && (w.pending > 0 ==> w'.timed && w'.pending == if w.timed || elapsed < 60 then 0 else elapsed / 60 + 1)
  }

  /** The bars of one answer: what is passed on, and what is remembered of it. */
  predicate GoesWith(cfg: Settings, s: State, io: Io, r: Round)
    requires io.rates.Some? && |io.rates.value| >= 2
  {
    var n := |io.rates.value| - 1;
    var newest := if cfg.stale != 0 && r.out != [] then io.clock.emitted else s.newBarAt;
    var silent :=
      && cfg.stale != 0 && r.s.last.Some? && io.clock.watch - newest > cfg.stale
      && r.s.offset.Some? && io.clock.recent - (r.s.last.value - r.s.offset.value) <= 54000;
    && IsOffset(s.offset, io.rates.value[n].ts, io.clock.lock, r.s.offset)
    && r.s.last == (if r.out == [] then s.last else Some(r.out[|r.out| - 1].ts))
    && r.s.streak == 0 && IsWarmup(s.warmup, io.clock, r.s.warmup)
    && r.attempts == (if silent then [io.reconnects] else [])
    && r.s.newBarAt == if silent && !r.raised then io.clock.restart else newest
  }

  /** One round. */
  predicate RoundGoes(cfg: Settings, s: State, io: Io, r: Round) {
    if io.rates.None? || |io.rates.value| <= 1 then GoesWithout(s, io, r)
    else if TooFar(s, io.rates.value[|io.rates.value| - 1].ts, io.clock.lock) then
      r == Round(s.(streak := 0), [], [], false)
    else GoesWith(cfg, s, io, r)
  }

  lemma NearestIs(diff: int)
    ensures NearestHours(diff, RoundHalfEven(diff, 3600) * 3600)
  {
  }

  lemma {:induction false} PollGoes(cfg: Settings, s: State, io: Io)
    requires s.warmup.started.None?
    ensures RoundGoes(cfg, s, io, Poll(cfg, s, io)) && Poll(cfg, s, io).s.warmup.started.None?
  {
    if io.rates.Some? && |io.rates.value| >= 2 {
      AnswerGoes(cfg, s, io, io.rates.value[|io.rates.value| - 1].ts, io.rates.value[..|io.rates.value| - 1]);
    }
  }

  /** The last of the bars is still forming, the others have closed. */
  lemma {:induction false} AnswerGoes(cfg: Settings, s: State, io: Io, forming: int, closed: seq<Candle>)
    requires s.warmup.started.None? && io.rates.Some? && |io.rates.value| >= 2
    requires closed == io.rates.value[..|io.rates.value| - 1] && forming == io.rates.value[|io.rates.value| - 1].ts
    ensures RoundGoes(cfg, s, io, Poll(cfg, s, io)) && Poll(cfg, s, io).s.warmup.started.None?
  {
    if TooFar(s, forming, io.clock.lock) {
      assert !Delivers(s, io);
    } else {
      var s1 := Locked(s.(streak := 0), forming, io.clock.lock);
      var s2 := Passed(cfg, s1, closed, io.clock);
      LockedIs(s.(streak := 0), forming, io.clock.lock);
      PassedIs(cfg, s1, closed, io.clock);
      WatchedIs(cfg, s2, io);
      assert Delivers(s, io);
      assert Poll(cfg, s, io) == Watched(cfg, s2, io).(out := Unseen(s.last, closed));
    }
  }

  lemma LockedIs(s: State, forming: int, now: int)
    ensures Locked(s, forming, now) == s.(offset := Locked(s, forming, now).offset)
    ensures IsOffset(s.offset, forming, now, Locked(s, forming, now).offset)
  {
    NearestIs(forming - now);
  }

  lemma {:induction false} PassedIs(cfg: Settings, s: State, closed: seq<Candle>, clock: Clock)
    requires s.warmup.started.None?
    ensures var s', out := Passed(cfg, s, closed, clock), Unseen(s.last, closed);
            && s' == s.(last := s'.last, warmup := s'.warmup, newBarAt := s'.newBarAt)
            && s'.last == (if out == [] then s.last else Some(out[|out| - 1].ts))
            && IsWarmup(s.warmup, clock, s'.warmup)
            && s'.newBarAt == if cfg.stale != 0 && out != [] then clock.emitted else s.newBarAt
  {
  }

  lemma WatchedIs(cfg: Settings, s: State, io: Io)
    ensures var r := Watched(cfg, s, io);
            var silent :=
              && cfg.stale != 0 && s.last.Some? && io.clock.watch - s.newBarAt > cfg.stale
              && s.offset.Some? && io.clock.recent - (s.last.value - s.offset.value) <= 54000;
            && r.s == s.(fails := r.s.fails, newBarAt := r.s.newBarAt)
            && r.attempts == (if silent then [io.reconnects] else [])
            && r.s.newBarAt == if silent && !r.raised then io.clock.restart else s.newBarAt
  {
  }

  lemma {:induction false} NotReplaying(cfg: Settings, now: int, market: seq<Candle>, ticks: seq<Tick>)
    requires AllPossible(market, ticks)
    ensures Run(cfg, now, market, ticks).s.warmup.started.None?
    decreases |ticks|
  {
    if ticks != [] {
      NotReplaying(cfg, now, market, ticks[..|ticks| - 1]);
      PollGoes(cfg, Run(cfg, now, market, ticks[..|ticks| - 1]).s, IoOf(market, ticks[|ticks| - 1]));
    }
  }

  /** In every run each round that takes place goes just that way. */
  lemma {:induction false} EveryRound(cfg: Settings, now: int, market: seq<Candle>, ticks: seq<Tick>, t: Tick)
    requires AllPossible(market, ticks + [t])
    ensures AllPossible(market, ticks) && Possible(market, t)
    ensures var l, l' := Run(cfg, now, market, ticks), Run(cfg, now, market, ticks + [t]);
            var r := Poll(cfg, l.s, IoOf(market, t));
            if l.raised then l' == l
            else
              && RoundGoes(cfg, l.s, IoOf(market, t), r)
              && l'.s == r.s && l'.raised == r.raised
              && l'.out == l.out + r.out && l'.attempts == l.attempts + r.attempts
  {
    var more := ticks + [t];
    assert more[..|ticks|] == ticks && more[|ticks|] == t;
    assert forall i :: 0 <= i < |ticks| ==> more[i] == ticks[i];
    NotReplaying(cfg, now, market, ticks);
    PollGoes(cfg, Run(cfg, now, market, ticks).s, IoOf(market, t));
  }
}
