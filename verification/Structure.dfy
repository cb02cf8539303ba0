/** Streaming market structure: swing highs and lows confirmed a few bars late, and the breaks of
    the latest ones.  The tracker keeps a window and a reference on each side; what it says is
    compared here with a definition over the whole history of bars. */
module Structure {
  import opened Prelude
  import opened Models

  datatype Config = Config(lookback: nat, maxSwings: nat)

  predicate ValidConfig(cfg: Config) {
    cfg.lookback >= 1 && cfg.maxSwings >= 1
  }

  function Width(cfg: Config): nat {
    2 * cfg.lookback + 1
  }

  datatype Swing = Swing(ts: int, price: real)

  datatype Kind = Bos | Choch

  datatype Event = Event(ts: int, kind: Kind, direction: Direction, level: real)

  /** The swings on the side that a break in some direction goes through, the latest last, and the
      one still to be broken. */
  datatype Side = Side(swings: seq<Swing>, ref: Option<Swing>)

  datatype Tracker = Tracker(window: seq<Candle>, highs: Side, lows: Side, trend: Option<Direction>)

  const NewTracker := Tracker([], Side([], None), Side([], None), None)

  // ------------------------------------------------------------------ one bar

  /** Where a bar reaches in the direction of a break. */
  function Level(dir: Direction, c: Candle): real {
    if dir.Long? then c.high else c.low
  }

  predicate Beyond(dir: Direction, x: real, y: real) {
    if dir.Long? then x > y else x < y
  }

  /** The last `n` elements, or all of them. */
  function LastOf<T>(xs: seq<T>, n: nat): seq<T> {
    if |xs| > n then xs[|xs| - n..] else xs
  }

  /** Appending to a queue that holds at most `n`. */
  function Push<T>(xs: seq<T>, n: nat, x: T): seq<T> {
    LastOf(xs + [x], n)
  }

  /** The k-th bar of the window goes strictly beyond all the others. */
  predicate Extreme(dir: Direction, w: seq<Candle>, k: nat)
    requires k < |w|
  {
    forall j :: 0 <= j < |w| && j != k ==> Beyond(dir, Level(dir, w[k]), Level(dir, w[j]))
  }

  function SwingOf(dir: Direction, c: Candle): Swing {
    Swing(c.ts, Level(dir, c))
  }

  /** The bar that is now `lookback` bars old becomes a swing if it stands out. */
  function Confirm(cfg: Config, dir: Direction, w: seq<Candle>, s: Side): Side {
    if |w| == Width(cfg) && Extreme(dir, w, cfg.lookback) then
      var sp := SwingOf(dir, w[cfg.lookback]);
      Side(Push(s.swings, cfg.maxSwings, sp), Some(sp))
    else s
  }

  predicate Crosses(dir: Direction, ref: Option<Swing>, close: real) {
    ref.Some? && Beyond(dir, close, ref.value.price)
  }

  /** When a bar crosses both references, its own body decides. */
  function Winner(c: Candle, up: bool, dn: bool): Option<Direction> {
    if up && (!dn || c.close >= c.open) then Some(Long)
    else if dn then Some(Short)
    else None
  }

  function Update(cfg: Config, t: Tracker, c: Candle): (Tracker, Option<Event>) {
    var w := Push(t.window, Width(cfg), c);
    var highs, lows := Confirm(cfg, Long, w, t.highs), Confirm(cfg, Short, w, t.lows);
    var winner := Winner(c, Crosses(Long, highs.ref, c.close), Crosses(Short, lows.ref, c.close));
    if winner == Some(Long) then
      (Tracker(w, highs.(ref := None), lows, winner),
       Some(Event(c.ts, if t.trend == Some(Short) then Choch else Bos, Long, highs.ref.value.price)))
    else if winner == Some(Short) then
      (Tracker(w, highs, lows.(ref := None), winner),
       Some(Event(c.ts, if t.trend == Some(Long) then Choch else Bos, Short, lows.ref.value.price)))
    else (Tracker(w, highs, lows, t.trend), None)
  }

  function SideOf(t: Tracker, dir: Direction): Side {
    if dir.Long? then t.highs else t.lows
  }

  function LastSwing(s: Side): Option<Swing> {
    if s.swings == [] then None else Some(s.swings[|s.swings| - 1])
  }

  /** The level of the last low a bar dips under and closes above again. */
  function SweptLow(t: Tracker, c: Candle): Option<real> {
    var sl := LastSwing(t.lows);
    if sl.Some? && c.low < sl.value.price && c.close > sl.value.price then Some(sl.value.price) else None
  }

  function SweptHigh(t: Tracker, c: Candle): Option<real> {
    var sh := LastSwing(t.highs);
    if sh.Some? && c.high > sh.value.price && c.close < sh.value.price then Some(sh.value.price) else None
  }

  // ------------------------------------------------------------------ runs

  /** The tracker after some bars, and what it said at each of them. */
  datatype Log = Log(tracker: Tracker, events: seq<Option<Event>>)

  function Run(cfg: Config, bars: seq<Candle>): (log: Log)
    ensures |log.events| == |bars|
    decreases |bars|
  {
    if bars == [] then Log(NewTracker, [])
    else
      var before := Run(cfg, bars[..|bars| - 1]);
      var (t, e) := Update(cfg, before.tracker, bars[|bars| - 1]);
      Log(t, before.events + [e])
  }

  // ------------------------------------------------------------------ over the whole history

  /** Bar `i` is a strict extreme of the bars within `k` of it, and `k` bars have come after it. */
  predicate IsSwing(dir: Direction, k: nat, bars: seq<Candle>, i: nat) {
    && k <= i && i + k < |bars|
    && forall j :: i - k <= j <= i + k && j != i ==> Beyond(dir, Level(dir, bars[i]), Level(dir, bars[j]))
  }

  /** The swing bars of a history, in order. */
  function SwingBars(dir: Direction, k: nat, bars: seq<Candle>): (r: seq<nat>)
    ensures forall i :: 0 <= i < |r| ==> r[i] < |bars|
    decreases |bars|
  {
    if bars == [] then []
    else
      var older, i := SwingBars(dir, k, bars[..|bars| - 1]), |bars| - 1 - k;
      if i >= 0 && IsSwing(dir, k, bars, i) then older + [i] else older
  }

  predicate Went(e: Option<Event>, dir: Direction) {
    e.Some? && e.value.direction == dir
  }

  /** Some bar from `from` on broke in direction `dir`. */
  predicate BrokenSince(events: seq<Option<Event>>, dir: Direction, from: nat) {
    exists m :: from <= m < |events| && Went(events[m], dir)
  }

  /** The latest swing, unless it has been broken since it was confirmed. */
  function Standing(dir: Direction, k: nat, bars: seq<Candle>, events: seq<Option<Event>>): (r: Option<nat>)
    ensures r.Some? ==> r.value < |bars|
  {
    var all := SwingBars(dir, k, bars);
    if all == [] || BrokenSince(events, dir, all[|all| - 1] + k) then None else Some(all[|all| - 1])
  }

  function AsSwing(dir: Direction, bars: seq<Candle>, i: Option<nat>): Option<Swing>
    requires i.Some? ==> i.value < |bars|
  {
    if i.None? then None else Some(SwingOf(dir, bars[i.value]))
  }

  /** Direction of the latest event. */
  function LastDirection(events: seq<Option<Event>>): Option<Direction>
    decreases |events|
  {
    if events == [] then None
    else if events[|events| - 1].Some? then Some(events[|events| - 1].value.direction)
    else LastDirection(events[..|events| - 1])
  }

  /** What the last bar of a history amounts to, given what its earlier bars did. */
  function EventOf(k: nat, bars: seq<Candle>, past: seq<Option<Event>>): Option<Event>
    requires |bars| == |past| + 1
  {
    var c := bars[|past|];
    var high := AsSwing(Long, bars, Standing(Long, k, bars, past));
    var low := AsSwing(Short, bars, Standing(Short, k, bars, past));
    var winner := Winner(c, Crosses(Long, high, c.close), Crosses(Short, low, c.close));
    if winner.None? then None
    else
      var turns := LastDirection(past) == Some(Opposite(winner.value));
      Some(Event(c.ts, if turns then Choch else Bos, winner.value,
                 (if winner.value.Long? then high else low).value.price))
  }

  // ------------------------------------------------------------------ the two agree

  lemma {:induction false} PushKeepsLast<T>(xs: seq<T>, n: nat, x: T)
    ensures Push(LastOf(xs, n), n, x) == LastOf(xs + [x], n)
  {
  }

  function Swings(dir: Direction, bars: seq<Candle>, at: seq<nat>): seq<Swing>
    requires forall i :: 0 <= i < |at| ==> at[i] < |bars|
  {
    seq(|at|, i requires 0 <= i < |at| => SwingOf(dir, bars[at[i]]))
  }

  lemma {:induction false} SwingsGrow(dir: Direction, bars: seq<Candle>, at: seq<nat>, c: Candle, i: nat)
    requires forall i :: 0 <= i < |at| ==> at[i] < |bars|
    requires i <= |bars|
    ensures Swings(dir, bars + [c], at) == Swings(dir, bars, at)
    ensures Swings(dir, bars + [c], at + [i]) == Swings(dir, bars, at) + [SwingOf(dir, (bars + [c])[i])]
  {
  }

  /** The swings of one side are the latest of the history, the reference the standing one. */
  ghost predicate SideMatches(cfg: Config, dir: Direction, bars: seq<Candle>, events: seq<Option<Event>>, s: Side) {
    var all := SwingBars(dir, cfg.lookback, bars);
    && s.swings == LastOf(Swings(dir, bars, all), cfg.maxSwings)
    && s.ref == AsSwing(dir, bars, Standing(dir, cfg.lookback, bars, events))
  }

  ghost predicate Matches(cfg: Config, bars: seq<Candle>, log: Log) {
    && |log.events| == |bars|
    && log.tracker.window == LastOf(bars, Width(cfg))
    && SideMatches(cfg, Long, bars, log.events, log.tracker.highs)
    && SideMatches(cfg, Short, bars, log.events, log.tracker.lows)
    && log.tracker.trend == LastDirection(log.events)
  }

  /** The bar that the last one confirms, if there is one, is a swing of the window exactly when it is
      one of the history. */
  lemma {:induction false} ConfirmIs(cfg: Config, dir: Direction, bars: seq<Candle>, s: Side)
    requires |bars| > cfg.lookback
    ensures var i := |bars| - 1 - cfg.lookback;
            Confirm(cfg, dir, LastOf(bars, Width(cfg)), s) ==
            if IsSwing(dir, cfg.lookback, bars, i) then
              Side(Push(s.swings, cfg.maxSwings, SwingOf(dir, bars[i])), Some(SwingOf(dir, bars[i])))
            else s
  {
    var w, first, k := LastOf(bars, Width(cfg)), |bars| - Width(cfg), cfg.lookback;
    if first >= 0 {
      assert forall j :: 0 <= j < |w| ==> w[j] == bars[first + j];
      if Extreme(dir, w, k) {
        forall j | first <= j <= first + 2 * k && j != first + k
          ensures Beyond(dir, Level(dir, bars[first + k]), Level(dir, bars[j]))
        {
          assert bars[j] == w[j - first];
        }
      }
    }
  }

  lemma {:induction false} SwingBarsStep(dir: Direction, k: nat, bars: seq<Candle>, c: Candle)
    ensures SwingBars(dir, k, bars + [c]) ==
            SwingBars(dir, k, bars) +
            if |bars| >= k && IsSwing(dir, k, bars + [c], |bars| - k) then [|bars| - k] else []
  {
    assert (bars + [c])[..|bars|] == bars;
  }

  lemma {:induction false} NothingSince(events: seq<Option<Event>>, dir: Direction, from: nat)
    requires from >= |events|
    ensures !BrokenSince(events, dir, from)
  {
  }

  lemma {:induction false} NewSwingStands(cfg: Config, dir: Direction, bars: seq<Candle>, events: seq<Option<Event>>,
                                          s: Side, c: Candle)
    requires |events| == |bars| >= cfg.lookback && SideMatches(cfg, dir, bars, events, s)
    requires SwingBars(dir, cfg.lookback, bars + [c]) == SwingBars(dir, cfg.lookback, bars) + [|bars| - cfg.lookback]
    ensures var sp := SwingOf(dir, (bars + [c])[|bars| - cfg.lookback]);
            SideMatches(cfg, dir, bars + [c], events, Side(Push(s.swings, cfg.maxSwings, sp), Some(sp)))
  {
    var all, i := SwingBars(dir, cfg.lookback, bars), |bars| - cfg.lookback;
    SwingsGrow(dir, bars, all, c, i);
    PushKeepsLast(Swings(dir, bars, all), cfg.maxSwings, SwingOf(dir, (bars + [c])[i]));
    NothingSince(events, dir, i + cfg.lookback);
  }

  lemma {:induction false} OldSwingStands(cfg: Config, dir: Direction, bars: seq<Candle>, events: seq<Option<Event>>,
                                          s: Side, c: Candle)
    requires |events| == |bars| && SideMatches(cfg, dir, bars, events, s)
    requires SwingBars(dir, cfg.lookback, bars + [c]) == SwingBars(dir, cfg.lookback, bars)
    ensures SideMatches(cfg, dir, bars + [c], events, s)
  {
    SwingsGrow(dir, bars, SwingBars(dir, cfg.lookback, bars), c, 0);
  }

  /** Before the break of a new bar is looked at, its side stands as the history says. */
  lemma {:induction false} ConfirmMatches(cfg: Config, dir: Direction, bars: seq<Candle>, events: seq<Option<Event>>,
                                          s: Side, c: Candle)
    requires |events| == |bars| && SideMatches(cfg, dir, bars, events, s)
    ensures SideMatches(cfg, dir, bars + [c], events, Confirm(cfg, dir, LastOf(bars + [c], Width(cfg)), s))
  {
    var more, k := bars + [c], cfg.lookback;
    SwingBarsStep(dir, k, bars, c);
    if |bars| < k {
      OldSwingStands(cfg, dir, bars, events, s, c);
    } else {
      ConfirmIs(cfg, dir, more, s);
      if IsSwing(dir, k, more, |bars| - k) {
        NewSwingStands(cfg, dir, bars, events, s, c);
      } else {
        OldSwingStands(cfg, dir, bars, events, s, c);
      }
    }
  }

  /** A break empties the reference it goes through and no other. */
  lemma {:induction false} BreakMatches(cfg: Config, dir: Direction, bars: seq<Candle>, events: seq<Option<Event>>,
                                        s: Side, e: Option<Event>)
    requires |bars| == |events| + 1 && SideMatches(cfg, dir, bars, events, s)
    requires Went(e, dir) ==> s.ref.Some?
    ensures SideMatches(cfg, dir, bars, events + [e], if Went(e, dir) then s.(ref := None) else s)
  {
    var all, k, n := SwingBars(dir, cfg.lookback, bars), cfg.lookback, |events|;
    if all != [] {
      var i := all[|all| - 1];
      SwingBarsAscend(dir, k, bars);
      if Went(e, dir) {
        assert (events + [e])[n] == e;
      } else if BrokenSince(events, dir, i + k) {
        var m :| i + k <= m < n && Went(events[m], dir);
        assert Went((events + [e])[m], dir);
      }
    }
  }

  /** The swing bars are in increasing order, and `k` bars have come after each. */
  lemma {:induction false} SwingBarsAscend(dir: Direction, k: nat, bars: seq<Candle>)
    ensures var all := SwingBars(dir, k, bars);
            && (all != [] ==> all[|all| - 1] + k < |bars|)
            && forall a, b :: 0 <= a < b < |all| ==> all[a] < all[b]
    decreases |bars|
  {
    if bars != [] {
      SwingBarsAscend(dir, k, bars[..|bars| - 1]);
    }
  }

  /** They are exactly the swings of the history. */
  lemma {:induction false} SwingBarsExact(dir: Direction, k: nat, bars: seq<Candle>, i: nat)
    ensures i in SwingBars(dir, k, bars) <==> IsSwing(dir, k, bars, i)
    decreases |bars|
  {
    if bars != [] {
      var n := |bars| - 1;
      SwingBarsExact(dir, k, bars[..n], i);
      if i + k < n {
        assert IsSwing(dir, k, bars, i) == IsSwing(dir, k, bars[..n], i);
      }
    }
  }

  /** The side after the new bar has confirmed what it confirms. */
  function ConfirmedSide(cfg: Config, dir: Direction, t: Tracker, c: Candle): Side {
    Confirm(cfg, dir, Push(t.window, Width(cfg), c), SideOf(t, dir))
  }

  lemma {:induction false} SideConfirmed(cfg: Config, dir: Direction, bars: seq<Candle>, log: Log, c: Candle)
    requires Matches(cfg, bars, log)
    ensures SideMatches(cfg, dir, bars + [c], log.events, ConfirmedSide(cfg, dir, log.tracker, c))
  {
    PushKeepsLast(bars, Width(cfg), c);
    ConfirmMatches(cfg, dir, bars, log.events, SideOf(log.tracker, dir), c);
  }

  lemma {:induction false} UpdateIs(cfg: Config, dir: Direction, t: Tracker, c: Candle)
    ensures var (t', e) := Update(cfg, t, c);
            var s := ConfirmedSide(cfg, dir, t, c);
            && SideOf(t', dir) == (if Went(e, dir) then s.(ref := None) else s)
            && (Went(e, dir) ==> s.ref.Some?)
            && t'.window == Push(t.window, Width(cfg), c)
            && t'.trend == if e.Some? then Some(e.value.direction) else t.trend
  {
  }

  lemma {:induction false} UpdateSide(cfg: Config, dir: Direction, bars: seq<Candle>, log: Log, c: Candle)
    requires Matches(cfg, bars, log)
    ensures var (t, e) := Update(cfg, log.tracker, c);
            SideMatches(cfg, dir, bars + [c], log.events + [e], SideOf(t, dir))
  {
    SideConfirmed(cfg, dir, bars, log, c);
    UpdateIs(cfg, dir, log.tracker, c);
    var (t, e) := Update(cfg, log.tracker, c);
    BreakMatches(cfg, dir, bars + [c], log.events, ConfirmedSide(cfg, dir, log.tracker, c), e);
  }

  lemma {:induction false} LastDirectionSnoc(events: seq<Option<Event>>, e: Option<Event>)
    ensures LastDirection(events + [e]) == if e.Some? then Some(e.value.direction) else LastDirection(events)
  {
    assert (events + [e])[..|events|] == events;
  }

  lemma {:induction false} UpdateMatches(cfg: Config, bars: seq<Candle>, log: Log, c: Candle)
    requires Matches(cfg, bars, log)
    ensures var (t, e) := Update(cfg, log.tracker, c); Matches(cfg, bars + [c], Log(t, log.events + [e]))
  {
    var (t, e) := Update(cfg, log.tracker, c);
    UpdateSide(cfg, Long, bars, log, c);
    UpdateSide(cfg, Short, bars, log, c);
    UpdateIs(cfg, Long, log.tracker, c);
    PushKeepsLast(bars, Width(cfg), c);
    LastDirectionSnoc(log.events, e);
  }

  /** And its event is that of the history. */
  lemma {:induction false} UpdateEvent(cfg: Config, bars: seq<Candle>, log: Log, c: Candle)
    requires Matches(cfg, bars, log)
    ensures Update(cfg, log.tracker, c).1 == EventOf(cfg.lookback, bars + [c], log.events)
  {
    SideConfirmed(cfg, Long, bars, log, c);
    SideConfirmed(cfg, Short, bars, log, c);
  }

  /** After these bars the tracker says what the history says. */
  ghost predicate RunOk(cfg: Config, bars: seq<Candle>) {
    Matches(cfg, bars, Run(cfg, bars))
  }

  lemma {:induction false} RunSnoc(cfg: Config, bars: seq<Candle>, most: seq<Candle>, c: Candle)
    requires bars == most + [c]
    ensures var before := Run(cfg, most);
            var (t, e) := Update(cfg, before.tracker, c);
            Run(cfg, bars) == Log(t, before.events + [e])
  {
    assert bars[..|most|] == most;
  }

  lemma {:induction false} NextMatches(cfg: Config, bars: seq<Candle>, most: seq<Candle>, c: Candle)
    requires RunOk(cfg, most) && bars == most + [c]
    ensures RunOk(cfg, bars)
  {
    UpdateMatches(cfg, most, Run(cfg, most), c);
    RunSnoc(cfg, bars, most, c);
  }

  lemma {:induction false} NothingMatches(cfg: Config, bars: seq<Candle>)
    requires bars == []
    ensures RunOk(cfg, bars)
  {
  }

  lemma {:induction false} AllRunOk(cfg: Config, bars: seq<Candle>)
    ensures RunOk(cfg, bars)
    decreases |bars|
  {
    if bars == [] {
      NothingMatches(cfg, bars);
    } else {
      var most := bars[..|bars| - 1];
      AllRunOk(cfg, most);
      NextMatches(cfg, bars, most, bars[|bars| - 1]);
    }
  }

  lemma {:induction false} RunMatches(cfg: Config, bars: seq<Candle>)
    ensures Matches(cfg, bars, Run(cfg, bars))
  {
    AllRunOk(cfg, bars);
  }

  lemma {:induction false} RunPrefix(cfg: Config, bars: seq<Candle>, n: nat)
    requires n <= |bars|
    ensures Run(cfg, bars[..n]).events == Run(cfg, bars).events[..n]
    decreases |bars|
  {
    if n == |bars| {
      assert bars[..n] == bars;
    } else {
      assert bars[..|bars| - 1][..n] == bars[..n];
      RunPrefix(cfg, bars[..|bars| - 1], n);
    }
  }

  /** Bar by bar the tracker, which remembers a bounded part of the past, says what the whole history
      says. */
  lemma {:induction false} Refines(cfg: Config, bars: seq<Candle>, n: nat)
    requires ValidConfig(cfg) && n < |bars|
    ensures var events := Run(cfg, bars).events;
            events[n] == EventOf(cfg.lookback, bars[..n + 1], events[..n])
  {
    var most := bars[..n];
    assert bars[..n + 1] == most + [bars[n]];
    RunMatches(cfg, most);
    UpdateEvent(cfg, most, Run(cfg, most), bars[n]);
    RunPrefix(cfg, bars, n);
    EventAt(cfg, bars, n);
  }

  lemma {:induction false} EventAt(cfg: Config, bars: seq<Candle>, n: nat)
    requires n < |bars|
    ensures Run(cfg, bars).events[n] == Update(cfg, Run(cfg, bars[..n]).tracker, bars[n]).1
  {
    assert bars[..n + 1] == bars[..n] + [bars[n]];
    RunSnoc(cfg, bars[..n + 1], bars[..n], bars[n]);
    RunPrefix(cfg, bars, n + 1);
    assert Run(cfg, bars).events[..n + 1][n] == Run(cfg, bars).events[n];
  }

  /** Bar `i` is the last swing of the history. */
  ghost predicate LatestSwing(dir: Direction, k: nat, bars: seq<Candle>, i: nat) {
    IsSwing(dir, k, bars, i) && forall j: nat :: j > i ==> !IsSwing(dir, k, bars, j)
  }

  lemma {:induction false} LatestIsLast(dir: Direction, k: nat, bars: seq<Candle>, i: nat)
    requires LatestSwing(dir, k, bars, i)
    ensures var all := SwingBars(dir, k, bars); all != [] && all[|all| - 1] == i
  {
    SwingBarsExact(dir, k, bars, i);
    SwingBarsAscend(dir, k, bars);
    var all := SwingBars(dir, k, bars);
    var at :| 0 <= at < |all| && all[at] == i;
    var last := all[|all| - 1];
    assert last in all;
    SwingBarsExact(dir, k, bars, last);
  }

  lemma {:induction false} SideNames(cfg: Config, dir: Direction, bars: seq<Candle>, events: seq<Option<Event>>,
                                     s: Side)
    requires cfg.maxSwings >= 1 && SideMatches(cfg, dir, bars, events, s)
    requires SwingBars(dir, cfg.lookback, bars) != []
    ensures var all := SwingBars(dir, cfg.lookback, bars);
            var i := all[|all| - 1];
            && LastSwing(s) == Some(SwingOf(dir, bars[i]))
            && s.ref == if BrokenSince(events, dir, i + cfg.lookback) then None else LastSwing(s)
  {
    var all := SwingBars(dir, cfg.lookback, bars);
    var swings := Swings(dir, bars, all);
    assert LastOf(swings, cfg.maxSwings)[|s.swings| - 1] == swings[|all| - 1];
  }

  lemma {:induction false} RunSideMatches(cfg: Config, dir: Direction, bars: seq<Candle>)
    requires ValidConfig(cfg)
    ensures SideMatches(cfg, dir, bars, Run(cfg, bars).events, SideOf(Run(cfg, bars).tracker, dir))
  {
    RunMatches(cfg, bars);
  }

  /** The last swing the tracker names is the latest bar that stands out from its neighbourhood and
      has `lookback` bars after it; the reference is that swing until a break in its direction, and
      empty from then on. */
  lemma {:induction false} ReferenceExact(cfg: Config, dir: Direction, bars: seq<Candle>, i: nat)
    requires ValidConfig(cfg) && LatestSwing(dir, cfg.lookback, bars, i)
    ensures var log := Run(cfg, bars);
            var s := SideOf(log.tracker, dir);
            && i < |bars|
            && LastSwing(s) == Some(SwingOf(dir, bars[i]))
            && s.ref == if BrokenSince(log.events, dir, i + cfg.lookback) then None else LastSwing(s)
  {
    RunSideMatches(cfg, dir, bars);
    LatestIsLast(dir, cfg.lookback, bars, i);
    var log := Run(cfg, bars);
    SideNames(cfg, dir, bars, log.events, SideOf(log.tracker, dir));
  }

  lemma {:induction false} NoSwingNoReference(cfg: Config, dir: Direction, bars: seq<Candle>)
    requires ValidConfig(cfg) && forall i: nat :: !IsSwing(dir, cfg.lookback, bars, i)
    ensures var s := SideOf(Run(cfg, bars).tracker, dir); s.swings == [] && s.ref == None
  {
    RunMatches(cfg, bars);
    var all := SwingBars(dir, cfg.lookback, bars);
    if all != [] {
      SwingBarsExact(dir, cfg.lookback, bars, all[0]);
    }
  }

  /** The swing that the break at bar `n` goes through. */
  function BrokenAt(dir: Direction, k: nat, bars: seq<Candle>, n: nat): Option<nat>
    requires n < |bars|
  {
    var all := SwingBars(dir, k, bars[..n + 1]);
    if all == [] then None else Some(all[|all| - 1])
  }

  lemma {:induction false} EventGoesThrough(dir: Direction, k: nat, bars: seq<Candle>, past: seq<Option<Event>>)
    requires |bars| == |past| + 1 && Went(EventOf(k, bars, past), dir)
    ensures var all, e := SwingBars(dir, k, bars), EventOf(k, bars, past).value;
            && all != []
            && e.level == Level(dir, bars[all[|all| - 1]])
            && Beyond(dir, bars[|past|].close, e.level)
            && !BrokenSince(past, dir, all[|all| - 1] + k)
  {
  }

  lemma {:induction false} SwingStays(dir: Direction, k: nat, bars: seq<Candle>, n: nat, i: nat)
    requires n <= |bars| && IsSwing(dir, k, bars[..n], i)
    ensures IsSwing(dir, k, bars, i)
  {
    assert forall j :: 0 <= j < n ==> bars[..n][j] == bars[j];
  }

  /** A break goes, at the close, through the latest swing confirmed by then, one no earlier bar has
      broken since its confirmation. */
  lemma {:induction false} BreakGoesThrough(cfg: Config, dir: Direction, bars: seq<Candle>, n: nat)
    requires ValidConfig(cfg) && n < |bars| && Went(Run(cfg, bars).events[n], dir)
    ensures var events, i := Run(cfg, bars).events, BrokenAt(dir, cfg.lookback, bars, n);
            && i.Some? && i.value + cfg.lookback <= n
            && IsSwing(dir, cfg.lookback, bars, i.value)
            && events[n].value.level == Level(dir, bars[i.value])
            && Beyond(dir, bars[n].close, events[n].value.level)
            && !BrokenSince(events[..n], dir, i.value + cfg.lookback)
  {
    Refines(cfg, bars, n);
    EventBreaks(dir, cfg.lookback, bars, n, Run(cfg, bars).events[..n], Run(cfg, bars).events[n]);
  }

  lemma {:induction false} EventBreaks(dir: Direction, k: nat, bars: seq<Candle>, n: nat, past: seq<Option<Event>>,
                                       e: Option<Event>)
    requires n < |bars| && |past| == n && Went(e, dir) && e == EventOf(k, bars[..n + 1], past)
    ensures var i := BrokenAt(dir, k, bars, n);
            && i.Some? && i.value + k <= n
            && IsSwing(dir, k, bars, i.value)
            && e.value.level == Level(dir, bars[i.value])
            && Beyond(dir, bars[n].close, e.value.level)
            && !BrokenSince(past, dir, i.value + k)
  {
    EventGoesThrough(dir, k, bars[..n + 1], past);
    BrokenIsSwing(dir, k, bars, n);
  }

  lemma {:induction false} BrokenIsSwing(dir: Direction, k: nat, bars: seq<Candle>, n: nat)
    requires n < |bars| && BrokenAt(dir, k, bars, n).Some?
    ensures var i := BrokenAt(dir, k, bars, n).value;
            i + k <= n && IsSwing(dir, k, bars, i) && bars[..n + 1][i] == bars[i]
  {
    var upTo, i := bars[..n + 1], BrokenAt(dir, k, bars, n).value;
    SwingBarsAscend(dir, k, upTo);
    SwingBarsExact(dir, k, upTo, i);
    SwingStays(dir, k, bars, n + 1, i);
  }

  /** A swing is broken at most once: a later break in the same direction goes through a later swing,
      one confirmed only after the earlier break. */
  lemma {:induction false} BrokenOnce(cfg: Config, dir: Direction, bars: seq<Candle>, m: nat, n: nat)
    requires ValidConfig(cfg) && m < n < |bars|
    requires Went(Run(cfg, bars).events[m], dir) && Went(Run(cfg, bars).events[n], dir)
    ensures var i, j := BrokenAt(dir, cfg.lookback, bars, m), BrokenAt(dir, cfg.lookback, bars, n);
            i.Some? && j.Some? && i.value < j.value && m < j.value + cfg.lookback <= n
  {
    BreakGoesThrough(cfg, dir, bars, m);
    BreakGoesThrough(cfg, dir, bars, n);
    var events := Run(cfg, bars).events;
    assert events[..n][m] == events[m];
  }

  lemma {:induction false} LastDirectionMeans(events: seq<Option<Event>>, dir: Direction)
    ensures LastDirection(events) == Some(dir) <==>
            exists m :: 0 <= m < |events| && Went(events[m], dir) && forall j :: m < j < |events| ==> events[j].None?
    decreases |events|
  {
    if events != [] {
      var n := |events| - 1;
      var most := events[..n];
      LastDirectionMeans(most, dir);
      if events[n].None? && LastDirection(most) == Some(dir) {
        var m :| 0 <= m < n && Went(most[m], dir) && forall j :: m < j < n ==> most[j].None?;
        forall j | m < j < |events| ensures events[j].None? {
          if j < n {
            assert most[j].None?;
          }
        }
        assert Went(events[m], dir);
      }
    }
  }

  /** An event is a change of character exactly when the event before it went the other way; in every
      other case, the first event included, it is a break of structure. */
  lemma {:induction false} KindExact(cfg: Config, bars: seq<Candle>, n: nat)
    requires ValidConfig(cfg) && n < |bars| && Run(cfg, bars).events[n].Some?
    ensures var events := Run(cfg, bars).events;
            var e := events[n].value;
            e.kind.Choch? <==>
            exists m ::
              && 0 <= m < n && Went(events[m], Opposite(e.direction))
              && forall j :: m < j < n ==> events[j].None?
  {
    Refines(cfg, bars, n);
    var events := Run(cfg, bars).events;
    var past, back := events[..n], Opposite(events[n].value.direction);
    LastDirectionMeans(past, back);
    assert forall j :: 0 <= j < n ==> past[j] == events[j];
  }

  // ------------------------------------------------------------------ the code itself

  class StructureTracker {
    const cfg: Config
    var window: seq<Candle>
    var highs: seq<Swing>
    var lows: seq<Swing>
    var refHigh: Option<Swing>
    var refLow: Option<Swing>
    var trend: Option<Direction>

    function Model(): Tracker
      reads this
    {
      Tracker(window, Side(highs, refHigh), Side(lows, refLow), trend)
    }

    constructor (cfg: Config)
      ensures this.cfg == cfg && Model() == NewTracker
    {
      this.cfg := cfg;
      window, highs, lows := [], [], [];
      refHigh, refLow, trend := None, None, None;
    }

    /** Whether the k-th bar of the window stands out. */
    method StandsOut(dir: Direction) returns (yes: bool)
      requires |window| == Width(cfg)
      ensures yes == Extreme(dir, window, cfg.lookback)
    {
      var k, j := cfg.lookback, 0;
      while j < |window|
        invariant 0 <= j <= |window|
        invariant forall i :: 0 <= i < j && i != k ==> Beyond(dir, Level(dir, window[k]), Level(dir, window[i]))
      {
        if j != k && !Beyond(dir, Level(dir, window[k]), Level(dir, window[j])) {
          return false;
        }
        j := j + 1;
      }
      return true;
    }

    method ConfirmCentre()
      modifies this`highs, this`lows, this`refHigh, this`refLow
      ensures Side(highs, refHigh) == Confirm(cfg, Long, window, old(Side(highs, refHigh)))
      ensures Side(lows, refLow) == Confirm(cfg, Short, window, old(Side(lows, refLow)))
    {
      if |window| == Width(cfg) {
        var mid := window[cfg.lookback];
        var top := StandsOut(Long);
        if top {
          var sp := Swing(mid.ts, mid.high);
          highs := Push(highs, cfg.maxSwings, sp);
          refHigh := Some(sp);
        }
        var bottom := StandsOut(Short);
        if bottom {
          var sp := Swing(mid.ts, mid.low);
          lows := Push(lows, cfg.maxSwings, sp);
          refLow := Some(sp);
        }
      }
    }

    /** `update`. */
    method Feed(c: Candle) returns (event: Option<Event>)
      modifies this
      ensures (Model(), event) == Update(cfg, old(Model()), c)
    {
      window := Push(window, Width(cfg), c);
      ConfirmCentre();
      var up := refHigh.Some? && c.close > refHigh.value.price;
      var dn := refLow.Some? && c.close < refLow.value.price;
      if up && dn {
        if c.close >= c.open {
          dn := false;
        } else {
          up := false;
        }
      }
      if up {
        var level := refHigh.value.price;
        refHigh := None;
        var kind := if trend == Some(Short) then Choch else Bos;
        trend := Some(Long);
        return Some(Event(c.ts, kind, Long, level));
      }
      if dn {
        var level := refLow.value.price;
        refLow := None;
        var kind := if trend == Some(Long) then Choch else Bos;
        trend := Some(Short);
        return Some(Event(c.ts, kind, Short, level));
      }
      return None;
    }

    method Reset()
      modifies this
      ensures Model() == NewTracker
    {
      window, highs, lows := [], [], [];
      refHigh, refLow, trend := None, None, None;
    }
  }
}
