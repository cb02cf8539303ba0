/** No bar goes through both references of the structure tracker, so its tie-break never decides, and a
    reference stands exactly until a close goes through it. */
module Breaks {
  import opened Prelude
  import opened Models
  import opened Structure

  predicate AllValid(bars: seq<Candle>) {
    forall i :: 0 <= i < |bars| ==> Valid(bars[i])
  }

  /** The last bar closes beyond the swing standing in this direction. */
  predicate Through(dir: Direction, k: nat, bars: seq<Candle>, past: seq<Option<Event>>)
    requires |bars| == |past| + 1
  {
    Crosses(dir, AsSwing(dir, bars, Standing(dir, k, bars, past)), bars[|past|].close)
  }

  predicate ThroughBoth(k: nat, bars: seq<Candle>, past: seq<Option<Event>>)
    requires |bars| == |past| + 1
  {
    Through(Long, k, bars, past) && Through(Short, k, bars, past)
  }

  // ------------------------------------------------------------------ the standing swing

  lemma {:induction false} StandingIs(dir: Direction, k: nat, bars: seq<Candle>, events: seq<Option<Event>>, i: nat)
    requires LatestSwing(dir, k, bars, i)
    ensures i + k < |bars|
    ensures Standing(dir, k, bars, events) == if BrokenSince(events, dir, i + k) then None else Some(i)
  {
    LatestIsLast(dir, k, bars, i);
  }

  lemma {:induction false} StandingIsLatest(dir: Direction, k: nat, bars: seq<Candle>, events: seq<Option<Event>>)
    requires Standing(dir, k, bars, events).Some?
    ensures var i := Standing(dir, k, bars, events).value;
            LatestSwing(dir, k, bars, i) && i + k < |bars| && !BrokenSince(events, dir, i + k)
  {
    var all := SwingBars(dir, k, bars);
    var i := all[|all| - 1];
    SwingBarsAscend(dir, k, bars);
    SwingBarsExact(dir, k, bars, i);
    forall j: nat | j > i ensures !IsSwing(dir, k, bars, j) {
      SwingBarsExact(dir, k, bars, j);
    }
  }

  /** The latest swing was the latest as soon as it was confirmed. */
  lemma {:induction false} LatestSoFar(dir: Direction, k: nat, bars: seq<Candle>, i: nat, n: nat)
    requires LatestSwing(dir, k, bars, i) && i + k < n <= |bars|
    ensures LatestSwing(dir, k, bars[..n], i)
  {
    assert forall j :: 0 <= j < n ==> bars[..n][j] == bars[j];
    forall j: nat | j > i ensures !IsSwing(dir, k, bars[..n], j) {
      if IsSwing(dir, k, bars[..n], j) {
        SwingStays(dir, k, bars, n, j);
      }
    }
  }

  lemma {:induction false} BrokenSoFar(events: seq<Option<Event>>, dir: Direction, from: nat, n: nat)
    requires n <= |events| && BrokenSince(events[..n], dir, from)
    ensures BrokenSince(events, dir, from)
  {
    var m :| from <= m < n && Went(events[..n][m], dir);
    assert Went(events[m], dir);
  }

  /** A bar that closes beyond the standing swing, and not beyond the other one, breaks it. */
  lemma {:induction false} Breaks(cfg: Config, dir: Direction, bars: seq<Candle>, i: nat, m: nat)
    requires ValidConfig(cfg) && m < |bars| && LatestSwing(dir, cfg.lookback, bars[..m + 1], i)
    requires !BrokenSince(Run(cfg, bars).events[..m], dir, i + cfg.lookback)
    requires Beyond(dir, bars[m].close, Level(dir, bars[i]))
    requires !ThroughBoth(cfg.lookback, bars[..m + 1], Run(cfg, bars).events[..m])
    ensures Went(Run(cfg, bars).events[m], dir)
  {
    Refines(cfg, bars, m);
    StandingIs(dir, cfg.lookback, bars[..m + 1], Run(cfg, bars).events[..m], i);
  }

  // ------------------------------------------------------------------ never both

  /** The bars of two swings that a close lies between the wrong way round are far apart. */
  lemma {:induction false} SwingsApart(dir: Direction, k: nat, bars: seq<Candle>, i: nat, j: nat)
    requires AllValid(bars) && IsSwing(dir, k, bars, i) && j < |bars|
    requires Beyond(dir, Level(Opposite(dir), bars[j]), Level(dir, bars[i])) && i <= j
    ensures i + k < j && Beyond(dir, bars[j].close, Level(dir, bars[i]))
  {
    assert Valid(bars[i]) && Valid(bars[j]);
  }

  /** If the earlier of the two swings stood when the later one was made, that bar's close broke it. */
  lemma {:induction false} EarlierBroken(cfg: Config, dir: Direction, bars: seq<Candle>, n: nat, i: nat, j: nat)
    requires ValidConfig(cfg) && AllValid(bars) && n < |bars|
    requires LatestSwing(dir, cfg.lookback, bars[..n + 1], i) && i <= j && j + cfg.lookback <= n
    requires Beyond(dir, Level(Opposite(dir), bars[j]), Level(dir, bars[i]))
    requires !ThroughBoth(cfg.lookback, bars[..j + 1], Run(cfg, bars).events[..j])
    ensures BrokenSince(Run(cfg, bars).events[..n], dir, i + cfg.lookback)
  {
    var upTo, k, events := bars[..n + 1], cfg.lookback, Run(cfg, bars).events;
    SwingsApart(dir, k, upTo, i, j);
    if BrokenSince(events[..j], dir, i + k) {
      assert events[..n][..j] == events[..j];
      BrokenSoFar(events[..n], dir, i + k, j);
    } else {
      assert upTo[..j + 1] == bars[..j + 1];
      LatestSoFar(dir, k, upTo, i, j + 1);
      Breaks(cfg, dir, bars, i, j);
      assert Went(events[..n][j], dir);
    }
  }

  /** On valid candles no bar of any run closes through both references. */
  lemma {:induction false} NeverBoth(cfg: Config, bars: seq<Candle>, n: nat)
    requires ValidConfig(cfg) && AllValid(bars) && n < |bars|
    ensures !ThroughBoth(cfg.lookback, bars[..n + 1], Run(cfg, bars).events[..n])
    decreases n
  {
    var upTo, k, past := bars[..n + 1], cfg.lookback, Run(cfg, bars).events[..n];
    if ThroughBoth(k, upTo, past) {
      StandingIsLatest(Long, k, upTo, past);
      StandingIsLatest(Short, k, upTo, past);
      var i, j := Standing(Long, k, upTo, past).value, Standing(Short, k, upTo, past).value;
      if i <= j {
        NeverBoth(cfg, bars, j);
        EarlierBroken(cfg, Long, bars, n, i, j);
      } else {
        NeverBoth(cfg, bars, i);
        EarlierBroken(cfg, Short, bars, n, j, i);
      }
    }
  }

  /** Of the tracker itself: whatever valid bar comes next, after any run of valid bars, its close is not
      beyond both references. */
  lemma {:induction false} TieBreakUnused(cfg: Config, bars: seq<Candle>, c: Candle)
    requires ValidConfig(cfg) && AllValid(bars) && Valid(c)
    ensures var t := Run(cfg, bars).tracker;
            var w := Push(t.window, Width(cfg), c);
            !(Crosses(Long, Confirm(cfg, Long, w, t.highs).ref, c.close)
              && Crosses(Short, Confirm(cfg, Short, w, t.lows).ref, c.close))
  {
    var more, n := bars + [c], |bars|;
    NeverBoth(cfg, more, n);
    assert more[..n + 1] == more && more[..n] == bars;
    RunPrefix(cfg, more, n);
    RunMatches(cfg, bars);
    var log := Run(cfg, bars);
    PushKeepsLast(bars, Width(cfg), c);
    ConfirmMatches(cfg, Long, bars, log.events, log.tracker.highs, c);
    ConfirmMatches(cfg, Short, bars, log.events, log.tracker.lows, c);
  }

  // ------------------------------------------------------------------ until a close goes through it

  /** A bar from `from` on closed beyond the level. */
  predicate ClosedBeyond(dir: Direction, bars: seq<Candle>, from: nat, level: real) {
    exists m :: from <= m < |bars| && Beyond(dir, bars[m].close, level)
  }

  /** A break after the latest swing was confirmed went through that swing. */
  lemma {:induction false} BrokeLatest(cfg: Config, dir: Direction, bars: seq<Candle>, i: nat, m: nat)
    requires ValidConfig(cfg) && LatestSwing(dir, cfg.lookback, bars, i) && i + cfg.lookback <= m < |bars|
    requires Went(Run(cfg, bars).events[m], dir)
    ensures Beyond(dir, bars[m].close, Level(dir, bars[i]))
  {
    BreakGoesThrough(cfg, dir, bars, m);
    LatestSoFar(dir, cfg.lookback, bars, i, m + 1);
    LatestIsLast(dir, cfg.lookback, bars[..m + 1], i);
  }

  lemma {:induction false} ClosedIsBroken(cfg: Config, dir: Direction, bars: seq<Candle>, i: nat, m: nat)
    requires ValidConfig(cfg) && AllValid(bars)
    requires LatestSwing(dir, cfg.lookback, bars, i) && i + cfg.lookback <= m < |bars|
    requires Beyond(dir, bars[m].close, Level(dir, bars[i]))
    ensures BrokenSince(Run(cfg, bars).events, dir, i + cfg.lookback)
  {
    var events := Run(cfg, bars).events;
    if BrokenSince(events[..m], dir, i + cfg.lookback) {
      BrokenSoFar(events, dir, i + cfg.lookback, m);
    } else {
      NeverBoth(cfg, bars, m);
      LatestSoFar(dir, cfg.lookback, bars, i, m + 1);
      Breaks(cfg, dir, bars, i, m);
    }
  }

  /** On valid candles the reference is the latest swing exactly until a close goes through it, and empty
      from then on. */
  lemma {:induction false} StandsUntilClose(cfg: Config, dir: Direction, bars: seq<Candle>, i: nat)
    requires ValidConfig(cfg) && AllValid(bars) && LatestSwing(dir, cfg.lookback, bars, i)
    ensures var s := SideOf(Run(cfg, bars).tracker, dir);
            && i < |bars|
            && LastSwing(s) == Some(SwingOf(dir, bars[i]))
            && s.ref == if ClosedBeyond(dir, bars, i + cfg.lookback, Level(dir, bars[i])) then None else LastSwing(s)
  {
    ReferenceExact(cfg, dir, bars, i);
    var events, k := Run(cfg, bars).events, cfg.lookback;
    if BrokenSince(events, dir, i + k) {
      var m :| i + k <= m < |events| && Went(events[m], dir);
      BrokeLatest(cfg, dir, bars, i, m);
    } else if ClosedBeyond(dir, bars, i + k, Level(dir, bars[i])) {
      var m :| i + k <= m < |bars| && Beyond(dir, bars[m].close, Level(dir, bars[i]));
      ClosedIsBroken(cfg, dir, bars, i, m);
    }
  }
}
