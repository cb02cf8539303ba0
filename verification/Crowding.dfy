/** A candidate is pushed out of its queue exactly when it is crowded out: the converse of what
    `Evictions` proves of candidates. */
module Crowding {
  import opened Prelude
  import opened Models
  import opened Structure
  import opened OrderBlocks
  import opened Evictions

  /** Every candidate crowded out is gone. */
  ghost predicate CrowdedAreGone(cfg: Limits, h: History)
    requires cfg.atrPeriod >= 1
  {
    forall d: Direction, n: nat :: CandidateCrowded(cfg, h.bars, h.events, d, n) ==> n in h.evicted
  }

  // ------------------------------------------------------------------ counting

  lemma {:induction false} BoreBefore(cfg: Limits, bars: seq<Candle>, events: seq<Option<Event>>, c: Candle,
                                      e: Option<Event>, d: Direction, n: nat)
    requires cfg.atrPeriod >= 1 && n <= |bars|
    ensures Bore(cfg, bars + [c], events + [e], d, n, false) == Bore(cfg, bars, events, d, n, false)
  {
    if n >= 1 {
      assert (bars + [c])[..n - 1] == bars[..n - 1];
    }
  }

  /** A further bar does not change what was born before. */
  lemma {:induction false} BirthsBefore(cfg: Limits, bars: seq<Candle>, events: seq<Option<Event>>, c: Candle,
                                        e: Option<Event>, d: Direction, lo: nat, hi: nat)
    requires cfg.atrPeriod >= 1 && hi <= |bars|
    ensures Births(cfg, bars + [c], events + [e], d, lo, hi, false) == Births(cfg, bars, events, d, lo, hi, false)
    decreases hi
  {
    if hi > lo {
      BirthsBefore(cfg, bars, events, c, e, d, lo, hi - 1);
      BoreBefore(cfg, bars, events, c, e, d, hi);
    }
  }

  lemma {:induction false} BirthsLater(cfg: Limits, bars: seq<Candle>, events: seq<Option<Event>>, d: Direction,
                                       lo: nat, lo': nat, hi: nat)
    requires cfg.atrPeriod >= 1 && lo <= lo'
    ensures Births(cfg, bars, events, d, lo', hi, false) <= Births(cfg, bars, events, d, lo, hi, false)
    decreases hi
  {
    if hi > lo' {
      BirthsLater(cfg, bars, events, d, lo, lo', hi - 1);
    }
  }

  predicate Queues(xs: seq<Block>, n: nat) {
    exists i :: 0 <= i < |xs| && xs[i].born == n
  }

  /** Where everything born after `n` is queued, `n` has that many behind it. */
  lemma {:induction false} BirthsQueued(cfg: Limits, bars: seq<Candle>, events: seq<Option<Event>>, d: Direction,
                                        xs: seq<Block>, p: nat, n: nat, hi: nat) returns (q: nat)
    requires cfg.atrPeriod >= 1 && Ascending(xs) && p < |xs| && xs[p].born == n <= hi
    requires forall m: nat :: n < m <= hi && Bore(cfg, bars, events, d, m, false) ==> Queues(xs, m)
    ensures p + Births(cfg, bars, events, d, n, hi, false) <= q < |xs| && xs[q].born <= hi
    decreases hi
  {
    if hi == n {
      return p;
    }
    q := BirthsQueued(cfg, bars, events, d, xs, p, n, hi - 1);
    if Bore(cfg, bars, events, d, hi, false) {
      assert Queues(xs, hi);
      q :| 0 <= q < |xs| && xs[q].born == hi;
    }
  }

  // ------------------------------------------------------------------ who is still queued

  /** A birth no break has followed in its direction and that can still be confirmed. */
  predicate Unconfirmed(cfg: Limits, h: History, d: Direction, n: nat)
    requires cfg.atrPeriod >= 1
  {
    && Bore(cfg, h.bars, h.events, d, n, false)
    && FirstBreak(h.events, d, n).None? && |h.bars| - n <= cfg.confirm
  }

  lemma {:induction false} UnconfirmedQueued(cfg: Limits, h: History, d: Direction, lane: Lane, n: nat)
    requires cfg.atrPeriod >= 1 && Complete(cfg, d, lane, h) && Unconfirmed(cfg, h, d, n) && n !in h.evicted
    ensures Queues(lane.pending, n)
  {
    var ob := BornAt(cfg, h.bars, n).value;
    assert Waiting(cfg, h, ob) && ob.born == n;
    var i :| 0 <= i < |lane.pending| && lane.pending[i] == ob;
  }

  /** Fewer than MAX_PENDING later births: not pushed out. */
  lemma {:induction false} UncrowdedStays(cfg: Limits, t: Zones, h: History, d: Direction, n: nat)
    requires ValidLimits(cfg) && Synced(cfg, h) && Explained(cfg, t, h) && Unconfirmed(cfg, h, d, n)
    requires Births(cfg, h.bars, h.events, d, n, |h.bars|, false) < MAX_PENDING
    ensures n !in h.evicted
  {
    BirthsFurther(cfg, h.bars, h.events, d, n, Horizon(cfg, h.events, d, n), |h.bars|, false);
    forall d' ensures !CandidateCrowded(cfg, h.bars, h.events, d', n) && !ActiveCrowded(cfg, h.bars, h.events, d', n) {}
  }

  /** The births after an unconfirmed one are unconfirmed as well, and not pushed out before it. */
  lemma {:induction false} LaterQueued(cfg: Limits, t: Zones, h: History, d: Direction, n: nat, m: nat)
    requires ValidLimits(cfg) && Inv(cfg, t, h) && Explained(cfg, t, h) && Unconfirmed(cfg, h, d, n)
    requires Births(cfg, h.bars, h.events, d, n, |h.bars|, false) < MAX_PENDING
    requires n <= m && Bore(cfg, h.bars, h.events, d, m, false)
    ensures Queues(LaneOf(t, d).pending, m)
  {
    if FirstBreak(h.events, d, m).Some? {
      FirstBreakEarlier(h.events, d, n, m);
    }
    BirthsLater(cfg, h.bars, h.events, d, n, m, |h.bars|);
    UncrowdedStays(cfg, t, h, d, m);
    UnconfirmedQueued(cfg, h, d, LaneOf(t, d), m);
  }

  // ------------------------------------------------------------------ a bar

  /** A candidate that this bar crowds out is at the head of a full queue when one more is born. */
  lemma {:induction false} FullQueue(cfg: Limits, t: Zones, h: History, c: Candle, e: Option<Event>, d: Direction,
                                     n: nat)
    requires ValidLimits(cfg) && Inv(cfg, t, h) && Explained(cfg, t, h) && Unconfirmed(cfg, h, d, n)
    requires Births(cfg, h.bars, h.events, d, n, |h.bars|, false) == MAX_PENDING - 1
    requires Bore(cfg, h.bars + [c], h.events + [e], d, |h.bars| + 1, false)
    ensures n in PushedOut(Queue(cfg, h, c, d, LaneOf(t, d)), MAX_PENDING)
  {
    var xs, q := LaneOf(t, d).pending, Queue(cfg, h, c, d, LaneOf(t, d));
    forall m: nat | n <= m <= |h.bars| && Bore(cfg, h.bars, h.events, d, m, false) ensures Queues(xs, m) {
      LaterQueued(cfg, t, h, d, n, m);
    }
    var p :| 0 <= p < |xs| && xs[p].born == n;
    var last := BirthsQueued(cfg, h.bars, h.events, d, xs, p, n, |h.bars|);
    NewbornQueued(cfg, h, c, e, d, LaneOf(t, d));
    assert q[p].born == n;
  }

  lemma {:induction false} NewbornQueued(cfg: Limits, h: History, c: Candle, e: Option<Event>, d: Direction, lane: Lane)
    requires cfg.atrPeriod >= 1 && Bore(cfg, h.bars + [c], h.events + [e], d, |h.bars| + 1, false)
    ensures var q := Queue(cfg, h, c, d, lane);
            |q| == |lane.pending| + 1 && q[..|lane.pending|] == lane.pending
  {
    assert (h.bars + [c])[..|h.bars|] == h.bars;
  }

  lemma {:induction false} HorizonStep(cfg: Limits, events: seq<Option<Event>>, e: Option<Event>, d: Direction, n: nat)
    requires n <= |events|
    ensures Horizon(cfg, events + [e], d, n) == Horizon(cfg, events, d, n)
         || (FirstBreak(events, d, n).None? && |events| - n <= cfg.confirm
             && Horizon(cfg, events, d, n) == |events| && Horizon(cfg, events + [e], d, n) == |events| + 1)
  {
    FirstBreakStep(events, e, d, n);
  }

  lemma {:induction false} CrowdedIsOlder(cfg: Limits, bars: seq<Candle>, events: seq<Option<Event>>, d: Direction,
                                          n: nat)
    requires cfg.atrPeriod >= 1 && |bars| == |events| && CandidateCrowded(cfg, bars, events, d, n)
    ensures n < |bars|
  {
  }

  /** Crowded out at this bar and not before: the queue was full, and this bar gave birth to one more. */
  lemma {:induction false} CrowdedNow(cfg: Limits, h: History, c: Candle, e: Option<Event>, d: Direction, n: nat)
    requires cfg.atrPeriod >= 1 && |h.bars| == |h.events|
    requires CandidateCrowded(cfg, h.bars + [c], h.events + [e], d, n)
    requires !CandidateCrowded(cfg, h.bars, h.events, d, n)
    ensures Unconfirmed(cfg, h, d, n)
    ensures Births(cfg, h.bars, h.events, d, n, |h.bars|, false) == MAX_PENDING - 1
    ensures Bore(cfg, h.bars + [c], h.events + [e], d, |h.bars| + 1, false)
  {
    CrowdedIsOlder(cfg, h.bars + [c], h.events + [e], d, n);
    BoreBefore(cfg, h.bars, h.events, c, e, d, n);
    HorizonStep(cfg, h.events, e, d, n);
    BirthsBefore(cfg, h.bars, h.events, c, e, d, n, Horizon(cfg, h.events, d, n));
  }

  lemma {:induction false} CrowdedGoes(cfg: Limits, t: Zones, h: History, c: Candle, e: Option<Event>, d: Direction,
                                       n: nat)
    requires ValidLimits(cfg) && Inv(cfg, t, h) && Explained(cfg, t, h) && CrowdedAreGone(cfg, h)
    requires CandidateCrowded(cfg, h.bars + [c], h.events + [e], d, n) && n !in h.evicted
    ensures n in Lost(cfg, h, c, e, d, LaneOf(t, d))
  {
    CrowdedNow(cfg, h, c, e, d, n);
    FullQueue(cfg, t, h, c, e, d, n);
  }

  lemma {:induction false} AdvanceGone(cfg: Limits, t: Zones, h: History, c: Candle, e: Option<Event>)
    requires ValidLimits(cfg) && Inv(cfg, t, h) && Explained(cfg, t, h) && CrowdedAreGone(cfg, h)
    ensures CrowdedAreGone(cfg, Fed(cfg, t, h, c, e))
  {
    var h' := Fed(cfg, t, h, c, e);
    forall d: Direction, n: nat | CandidateCrowded(cfg, h'.bars, h'.events, d, n) ensures n in h'.evicted {
      if n !in h.evicted {
        CrowdedGoes(cfg, t, h, c, e, d, n);
      }
    }
  }

  // ------------------------------------------------------------------ runs

  lemma {:induction false} RunGone(cfg: Limits, ops: seq<Op>)
    requires ValidLimits(cfg)
    ensures CrowdedAreGone(cfg, OrderBlocks.Run(cfg, ops).h)
    decreases |ops|
  {
    if ops != [] {
      var most := ops[..|ops| - 1];
      RunKeeps(cfg, most);
      RunExplained(cfg, most);
      RunGone(cfg, most);
      var w := OrderBlocks.Run(cfg, most);
      match ops[|ops| - 1]
      case Bar(c, e) => AdvanceGone(cfg, w.t, w.h, c, e);
      case Ask(lo, hi, d) =>
        assert OrderBlocks.Run(cfg, ops).h == Given(w.h, PoiAt(w.t, lo, hi, d).1);
    }
  }

  /** After any run, a block that no break has confirmed in time has been pushed out exactly when, while
      it was queued, MAX_PENDING more of its direction were born; one that has been confirmed and was so
      crowded has been pushed out too. */
  lemma {:induction false} PushedOutExactly(cfg: Limits, ops: seq<Op>, d: Direction, n: nat)
    requires ValidLimits(cfg)
    requires var h := OrderBlocks.Run(cfg, ops).h; Bore(cfg, h.bars, h.events, d, n, false)
    ensures var h := OrderBlocks.Run(cfg, ops).h;
            && (CandidateCrowded(cfg, h.bars, h.events, d, n) ==> n in h.evicted)
            && (!Bore(cfg, h.bars, h.events, d, n, true) ==>
                  (n in h.evicted <==> CandidateCrowded(cfg, h.bars, h.events, d, n)))
  {
    RunGone(cfg, ops);
    var h := OrderBlocks.Run(cfg, ops).h;
    if n in h.evicted && !Bore(cfg, h.bars, h.events, d, n, true) {
      EvictedWereCrowded(cfg, ops, n);
      var d' :| CandidateCrowded(cfg, h.bars, h.events, d', n) || ActiveCrowded(cfg, h.bars, h.events, d', n);
      assert d' == d;
    }
  }
}
