/** The blocks that the bounded queues push out, in terms of the history: a candidate goes only when
    enough later ones were born before it was confirmed, a confirmed block only when enough later ones
    were confirmed as well.  Nothing else is lost. */
module Evictions {
  import opened Prelude
  import opened Models
  import opened Structure
  import opened OrderBlocks

  // ------------------------------------------------------------------ counting blocks

  /** Bar `n` has given birth to a block of direction `d` or, if that is asked for, to one that a break
      has confirmed in time. */
  predicate Bore(cfg: Limits, bars: seq<Candle>, events: seq<Option<Event>>, d: Direction, n: nat, confirmed: bool)
    requires cfg.atrPeriod >= 1
  {
    && 1 <= n <= |bars|
    && BornAt(cfg, bars, n).Some? && BornAt(cfg, bars, n).value.direction == d
    && (confirmed ==> FirstBreak(events, d, n).Some? && FirstBreak(events, d, n).value - n <= cfg.confirm)
  }

  /** How many of the bars after `lo` and up to `hi` have. */
  function Births(cfg: Limits, bars: seq<Candle>, events: seq<Option<Event>>, d: Direction, lo: nat, hi: nat,
                  confirmed: bool): nat
    requires cfg.atrPeriod >= 1
    decreases hi
  {
    if hi <= lo then 0
    else
      Births(cfg, bars, events, d, lo, hi - 1, confirmed) + if Bore(cfg, bars, events, d, hi, confirmed) then 1 else 0
  }

  /** The last bar at which a block born at `n` is queued as a candidate: that of the first break or,
      without one, the bar after the `confirm` it waits. */
  function Horizon(cfg: Limits, events: seq<Option<Event>>, d: Direction, n: nat): nat {
    var last := if FirstBreak(events, d, n).Some? then FirstBreak(events, d, n).value else |events|;
    if last <= n + cfg.confirm + 1 then last else n + cfg.confirm + 1
  }

  predicate CandidateCrowded(cfg: Limits, bars: seq<Candle>, events: seq<Option<Event>>, d: Direction, n: nat)
    requires cfg.atrPeriod >= 1
  {
    && Bore(cfg, bars, events, d, n, false)
    && Births(cfg, bars, events, d, n, Horizon(cfg, events, d, n), false) >= MAX_PENDING
  }

  predicate ActiveCrowded(cfg: Limits, bars: seq<Candle>, events: seq<Option<Event>>, d: Direction, n: nat)
    requires cfg.atrPeriod >= 1
  {
    && Bore(cfg, bars, events, d, n, true)
    && Births(cfg, bars, events, d, n, |bars|, true) >= cfg.maxBlocks
  }

  /** Reason enough for the block born at bar `n` to have been pushed out: MAX_PENDING later births of
      its direction while it was a candidate, or `maxBlocks` later ones confirmed like itself. */
  predicate Crowded(cfg: Limits, bars: seq<Candle>, events: seq<Option<Event>>, n: nat)
    requires cfg.atrPeriod >= 1
  {
    exists d :: CandidateCrowded(cfg, bars, events, d, n) || ActiveCrowded(cfg, bars, events, d, n)
  }

  lemma {:induction false} BoreStays(cfg: Limits, bars: seq<Candle>, events: seq<Option<Event>>, c: Candle,
                                     e: Option<Event>, d: Direction, n: nat, confirmed: bool)
    requires cfg.atrPeriod >= 1 && Bore(cfg, bars, events, d, n, confirmed)
    ensures Bore(cfg, bars + [c], events + [e], d, n, confirmed)
  {
    BornStays(cfg, bars, c, BornAt(cfg, bars, n).value);
    FirstBreakStep(events, e, d, n);
  }

  lemma {:induction false} BirthsGrow(cfg: Limits, bars: seq<Candle>, events: seq<Option<Event>>, c: Candle,
                                      e: Option<Event>, d: Direction, lo: nat, hi: nat, confirmed: bool)
    requires cfg.atrPeriod >= 1
    ensures Births(cfg, bars, events, d, lo, hi, confirmed) <=
            Births(cfg, bars + [c], events + [e], d, lo, hi, confirmed)
    decreases hi
  {
    if hi > lo {
      BirthsGrow(cfg, bars, events, c, e, d, lo, hi - 1, confirmed);
      if Bore(cfg, bars, events, d, hi, confirmed) {
        BoreStays(cfg, bars, events, c, e, d, hi, confirmed);
      }
    }
  }

  lemma {:induction false} BirthsFurther(cfg: Limits, bars: seq<Candle>, events: seq<Option<Event>>, d: Direction,
                                         lo: nat, hi: nat, hi': nat, confirmed: bool)
    requires cfg.atrPeriod >= 1 && hi <= hi'
    ensures Births(cfg, bars, events, d, lo, hi, confirmed) <= Births(cfg, bars, events, d, lo, hi', confirmed)
    decreases hi'
  {
    if hi < hi' {
      BirthsFurther(cfg, bars, events, d, lo, hi, hi' - 1, confirmed);
    }
  }

  /** As many births as there are different blocks born in between. */
  lemma {:induction false} BlocksAreBirths(cfg: Limits, bars: seq<Candle>, events: seq<Option<Event>>, d: Direction,
                                           lo: nat, hi: nat, confirmed: bool, xs: seq<Block>)
    requires cfg.atrPeriod >= 1 && Ascending(xs)
    requires forall i :: 0 <= i < |xs| ==> lo < xs[i].born <= hi && Bore(cfg, bars, events, d, xs[i].born, confirmed)
    ensures |xs| <= Births(cfg, bars, events, d, lo, hi, confirmed)
    decreases |xs|
  {
    if xs != [] {
      var most, x := xs[..|xs| - 1], xs[|xs| - 1];
      BlocksAreBirths(cfg, bars, events, d, lo, x.born - 1, confirmed, most);
      BirthsFurther(cfg, bars, events, d, lo, x.born, hi, confirmed);
    }
  }

  lemma {:induction false} CandidateCrowdedStays(cfg: Limits, bars: seq<Candle>, events: seq<Option<Event>>, c: Candle,
                                                 e: Option<Event>, d: Direction, n: nat)
    requires cfg.atrPeriod >= 1 && |bars| == |events| && CandidateCrowded(cfg, bars, events, d, n)
    ensures CandidateCrowded(cfg, bars + [c], events + [e], d, n)
  {
    BoreStays(cfg, bars, events, c, e, d, n, false);
    FirstBreakStep(events, e, d, n);
    var hi, hi' := Horizon(cfg, events, d, n), Horizon(cfg, events + [e], d, n);
    BirthsGrow(cfg, bars, events, c, e, d, n, hi, false);
    BirthsFurther(cfg, bars + [c], events + [e], d, n, hi, hi', false);
  }

  lemma {:induction false} ActiveCrowdedStays(cfg: Limits, bars: seq<Candle>, events: seq<Option<Event>>, c: Candle,
                                              e: Option<Event>, d: Direction, n: nat)
    requires cfg.atrPeriod >= 1 && |bars| == |events| && ActiveCrowded(cfg, bars, events, d, n)
    ensures ActiveCrowded(cfg, bars + [c], events + [e], d, n)
  {
    BoreStays(cfg, bars, events, c, e, d, n, true);
    BirthsGrow(cfg, bars, events, c, e, d, n, |bars|, true);
    BirthsFurther(cfg, bars + [c], events + [e], d, n, |bars|, |bars + [c]|, true);
  }

  lemma {:induction false} CrowdedStays(cfg: Limits, bars: seq<Candle>, events: seq<Option<Event>>, c: Candle,
                                        e: Option<Event>, n: nat)
    requires cfg.atrPeriod >= 1 && |bars| == |events| && Crowded(cfg, bars, events, n)
    ensures Crowded(cfg, bars + [c], events + [e], n)
  {
    var d :| CandidateCrowded(cfg, bars, events, d, n) || ActiveCrowded(cfg, bars, events, d, n);
    if CandidateCrowded(cfg, bars, events, d, n) {
      CandidateCrowdedStays(cfg, bars, events, c, e, d, n);
    } else {
      ActiveCrowdedStays(cfg, bars, events, c, e, d, n);
    }
  }

  // ------------------------------------------------------------------ what is queued

  /** The block as it was born. */
  function Unspent(ob: Block): Block {
    ob.(mitigated := false)
  }

  /** Born in this history and confirmed in time, spent or not. */
  predicate Proven(cfg: Limits, h: History, ob: Block)
    requires cfg.atrPeriod >= 1
  {
    Born(cfg, h.bars, Unspent(ob)) && Bore(cfg, h.bars, h.events, ob.direction, ob.born, true)
  }

  predicate NoneIn(xs: seq<Block>, lost: set<nat>) {
    forall i :: 0 <= i < |xs| ==> xs[i].born !in lost
  }

  /** Nothing queued is among what has been pushed out, and what is active has been confirmed. */
  ghost predicate Present(cfg: Limits, lane: Lane, h: History)
    requires cfg.atrPeriod >= 1
  {
    && NoneIn(lane.pending, h.evicted) && NoneIn(lane.active, h.evicted)
    && forall i :: 0 <= i < |lane.active| ==> Proven(cfg, h, lane.active[i])
  }

  ghost predicate Explained(cfg: Limits, t: Zones, h: History)
    requires cfg.atrPeriod >= 1
  {
    && Present(cfg, t.longs, h) && Present(cfg, t.shorts, h)
    && forall n <- h.evicted :: Crowded(cfg, h.bars, h.events, n)
  }

  lemma {:induction false} ProvenStays(cfg: Limits, h: History, c: Candle, e: Option<Event>, ob: Block)
    requires cfg.atrPeriod >= 1 && Proven(cfg, h, ob)
    ensures Proven(cfg, Grown(h, c, e), ob)
  {
    BornStays(cfg, h.bars, c, Unspent(ob));
    BoreStays(cfg, h.bars, h.events, c, e, ob.direction, ob.born, true);
  }

  lemma {:induction false} LiveIsProven(cfg: Limits, h: History, ob: Block)
    requires cfg.atrPeriod >= 1 && Live(cfg, h, ob)
    ensures Proven(cfg, h, ob) && Unspent(ob) == ob
  {
  }

  /** A candidate at bar `c` has been born by then. */
  lemma {:induction false} CandidateBore(cfg: Limits, h: History, c: Candle, e: Option<Event>, d: Direction, ob: Block)
    requires cfg.atrPeriod >= 1 && Synced(cfg, h) && Candidate(cfg, h, c, d, ob)
    ensures Bore(cfg, h.bars + [c], h.events + [e], d, ob.born, false)
  {
    if ob.born <= |h.bars| {
      BornStays(cfg, h.bars, c, ob);
    } else {
      BornNow(cfg, h.bars, c, ob);
    }
  }

  lemma {:induction false} SiftedProven(cfg: Limits, h: History, c: Candle, e: Option<Event>, d: Direction, lane: Lane,
                                        ob: Block)
    requires cfg.atrPeriod >= 1 && Synced(cfg, h) && Sound(cfg, d, lane, h) && Present(cfg, lane, h)
    requires ob in Sift(cfg, lane.active, |h.bars| + 1, c)
    ensures ob.direction == d && Proven(cfg, Grown(h, c, e), ob) && ob.born !in h.evicted
            && FirstBreak(h.events, d, ob.born).Some?
  {
    var o := SiftFrom(cfg, lane.active, |h.bars| + 1, c, ob);
    assert Unspent(o) == Unspent(ob);
    ProvenStays(cfg, h, c, e, o);
  }

  // ------------------------------------------------------------------ what is pushed out

  /** What a queue keeps was all born after what it pushes out. */
  lemma {:induction false} TailAfter(xs: seq<Block>, k: nat, n: nat) returns (tail: seq<Block>)
    requires Ascending(xs) && n in PushedOut(xs, k)
    ensures |tail| == k && Ascending(tail)
    ensures forall j :: 0 <= j < k ==> tail[j] in xs && n < tail[j].born
  {
    var i :| 0 <= i < |xs| - k && xs[i].born == n;
    tail := xs[|xs| - k..];
    forall j | 0 <= j < k ensures tail[j] in xs && n < tail[j].born {
      assert tail[j] == xs[|xs| - k + j];
    }
  }

  /** The blocks queued at this bar are births of this history. */
  lemma {:induction false} QueueBore(cfg: Limits, h: History, c: Candle, e: Option<Event>, d: Direction, lane: Lane)
    requires ValidLimits(cfg) && Synced(cfg, h) && Sound(cfg, d, lane, h)
    ensures var q := Queue(cfg, h, c, d, lane);
            && Ascending(q)
            && forall i :: 0 <= i < |q| ==>
                 && q[i].born <= |h.bars| + 1 && FirstBreak(h.events, d, q[i].born).None?
                 && Bore(cfg, h.bars + [c], h.events + [e], d, q[i].born, false)
  {
    var q := Queue(cfg, h, c, d, lane);
    QueueSound(cfg, h, c, d, lane);
    forall i | 0 <= i < |q|
      ensures q[i].born <= |h.bars| + 1 && FirstBreak(h.events, d, q[i].born).None?
      ensures Bore(cfg, h.bars + [c], h.events + [e], d, q[i].born, false)
    {
      assert q[i] in q;
      CandidateBore(cfg, h, c, e, d, q[i]);
      CandidateUnbroken(cfg, h, c, d, q[i]);
    }
  }

  /** Pushed out of the candidates: the last MAX_PENDING of the queue were all born later, no later
      than this bar, and no break had come before it. */
  lemma {:induction false} CandidateLost(cfg: Limits, h: History, c: Candle, e: Option<Event>, d: Direction, lane: Lane,
                                         n: nat)
    requires ValidLimits(cfg) && Synced(cfg, h) && Sound(cfg, d, lane, h)
    requires n in PushedOut(Queue(cfg, h, c, d, lane), MAX_PENDING)
    ensures CandidateCrowded(cfg, h.bars + [c], h.events + [e], d, n)
  {
    var q, bars, events := Queue(cfg, h, c, d, lane), h.bars + [c], h.events + [e];
    QueueBore(cfg, h, c, e, d, lane);
    FirstBreakStep(h.events, e, d, n);
    QueueSound(cfg, h, c, d, lane);
    assert Horizon(cfg, events, d, n) == |h.bars| + 1;
    var later := TailAfter(q, MAX_PENDING, n);
    forall j | 0 <= j < |later|
      ensures later[j].born <= |h.bars| + 1 && Bore(cfg, bars, events, d, later[j].born, false)
    {
      assert later[j] in q;
    }
    BlocksAreBirths(cfg, bars, events, d, n, |h.bars| + 1, false, later);
  }

  /** A block that is active after a breaking bar, before the queue's limit. */
  lemma {:induction false} ConfirmingProven(cfg: Limits, h: History, c: Candle, e: Option<Event>, d: Direction,
                                            lane: Lane, ob: Block)
    requires ValidLimits(cfg) && Synced(cfg, h) && Sound(cfg, d, lane, h) && Present(cfg, lane, h) && Went(e, d)
    requires ob in Confirming(cfg, h, c, d, lane)
    ensures ob.direction == d && Proven(cfg, Grown(h, c, e), ob)
  {
    if ob in Sift(cfg, lane.active, |h.bars| + 1, c) {
      SiftedProven(cfg, h, c, e, d, lane, ob);
    } else {
      ConfirmedSound(cfg, h, c, e, d, lane, ob);
      LiveIsProven(cfg, Grown(h, c, e), ob);
    }
  }

  /** Pushed out of the active blocks: the last `maxBlocks` were all born later and confirmed as well. */
  lemma {:induction false} ActiveLost(cfg: Limits, h: History, c: Candle, e: Option<Event>, d: Direction, lane: Lane,
                                      n: nat)
    requires ValidLimits(cfg) && Synced(cfg, h) && Sound(cfg, d, lane, h) && Present(cfg, lane, h) && Went(e, d)
    requires n in PushedOut(Confirming(cfg, h, c, d, lane), cfg.maxBlocks)
    ensures ActiveCrowded(cfg, h.bars + [c], h.events + [e], d, n)
  {
    var all, bars, events := Confirming(cfg, h, c, d, lane), h.bars + [c], h.events + [e];
    BreakLaneAscends(cfg, h, c, e, d, lane);
    var i :| 0 <= i < |all| - cfg.maxBlocks && all[i].born == n;
    ConfirmingProven(cfg, h, c, e, d, lane, all[i]);
    var later := TailAfter(all, cfg.maxBlocks, n);
    forall j | 0 <= j < |later| ensures later[j].born <= |bars| && Bore(cfg, bars, events, d, later[j].born, true) {
      assert later[j] in all;
      ConfirmingProven(cfg, h, c, e, d, lane, later[j]);
    }
    BlocksAreBirths(cfg, bars, events, d, n, |bars|, true, later);
  }

  /** Whatever a bar pushes out of a lane is crowded out, and of the lane's direction. */
  lemma {:induction false} LostIsCrowded(cfg: Limits, h: History, c: Candle, e: Option<Event>, d: Direction, lane: Lane,
                                         n: nat)
    requires ValidLimits(cfg) && Synced(cfg, h) && Sound(cfg, d, lane, h) && Present(cfg, lane, h)
    requires n in Lost(cfg, h, c, e, d, lane)
    ensures Crowded(cfg, h.bars + [c], h.events + [e], n)
    ensures Bore(cfg, h.bars + [c], h.events + [e], d, n, false)
  {
    if n in PushedOut(Queue(cfg, h, c, d, lane), MAX_PENDING) {
      CandidateLost(cfg, h, c, e, d, lane, n);
    } else {
      ActiveLost(cfg, h, c, e, d, lane, n);
    }
  }

  // ------------------------------------------------------------------ a bar

  /** What a lane still holds was not pushed out of it. */
  lemma {:induction false} KeptNotLost(xs: seq<Block>, n: nat)
    requires Ascending(xs)
    ensures NoneIn(LastOf(xs, n), PushedOut(xs, n))
  {
    var r := LastOf(xs, n);
    forall i | 0 <= i < |r| ensures r[i].born !in PushedOut(xs, n) {
      if |xs| > n {
        assert r[i] == xs[|xs| - n + i];
      }
    }
  }

  lemma {:induction false} SiftedNotQueued(cfg: Limits, h: History, c: Candle, d: Direction, lane: Lane, x: Block)
    requires ValidLimits(cfg) && Synced(cfg, h) && Sound(cfg, d, lane, h)
    requires FirstBreak(h.events, d, x.born).Some?
    ensures x.born !in PushedOut(Queue(cfg, h, c, d, lane), MAX_PENDING)
  {
    var q := Queue(cfg, h, c, d, lane);
    QueueSound(cfg, h, c, d, lane);
    forall i | 0 <= i < |q| ensures q[i].born != x.born {
      assert q[i] in q;
      CandidateUnbroken(cfg, h, c, d, q[i]);
    }
  }

  /** Candidates and births before this bar: the newborn's name is new. */
  lemma {:induction false} CandidateNotEvicted(cfg: Limits, h: History, c: Candle, d: Direction, lane: Lane, ob: Block)
    requires ValidLimits(cfg) && Synced(cfg, h) && Sound(cfg, d, lane, h) && Present(cfg, lane, h)
    requires forall n <- h.evicted :: n <= |h.bars|
    requires ob in Queue(cfg, h, c, d, lane)
    ensures ob.born !in h.evicted
  {
    var q := Queue(cfg, h, c, d, lane);
    var i :| 0 <= i < |q| && q[i] == ob;
    assert i < |lane.pending| ==> q[i] == lane.pending[i];
  }

  lemma {:induction false} QuietPending(cfg: Limits, h: History, c: Candle, e: Option<Event>, d: Direction, lane: Lane)
    requires ValidLimits(cfg) && Synced(cfg, h) && Sound(cfg, d, lane, h) && Present(cfg, lane, h) && !Went(e, d)
    requires forall n <- h.evicted :: n <= |h.bars|
    ensures NoneIn(NextLane(cfg, h, c, e, d, lane).pending, h.evicted + Lost(cfg, h, c, e, d, lane))
  {
    var all, q, bar := Queue(cfg, h, c, d, lane), KeptQueue(cfg, h, c, d, lane), |h.bars| + 1;
    var pending := NextLane(cfg, h, c, e, d, lane).pending;
    QueueSound(cfg, h, c, d, lane);
    LastOfExact(all, MAX_PENDING);
    KeptNotLost(all, MAX_PENDING);
    DropStaleExact(cfg, q, bar);
    WithinExact(cfg, q, bar);
    forall i | 0 <= i < |pending| ensures pending[i].born !in h.evicted + Lost(cfg, h, c, e, d, lane) {
      assert pending[i] in pending && pending[i] in q;
      CandidateNotEvicted(cfg, h, c, d, lane, pending[i]);
      var j :| 0 <= j < |q| && q[j] == pending[i];
    }
  }

  lemma {:induction false} QuietPresent(cfg: Limits, h: History, c: Candle, e: Option<Event>, d: Direction, lane: Lane)
    requires ValidLimits(cfg) && Synced(cfg, h) && Sound(cfg, d, lane, h) && Present(cfg, lane, h) && !Went(e, d)
    requires forall n <- h.evicted :: n <= |h.bars|
    ensures Present(cfg, NextLane(cfg, h, c, e, d, lane),
                    Grown(h, c, e).(evicted := h.evicted + Lost(cfg, h, c, e, d, lane)))
  {
    var next := NextLane(cfg, h, c, e, d, lane);
    QuietPending(cfg, h, c, e, d, lane);
    forall i | 0 <= i < |next.active|
      ensures next.active[i].born !in h.evicted + Lost(cfg, h, c, e, d, lane)
              && Proven(cfg, Grown(h, c, e), next.active[i])
    {
      SiftedProven(cfg, h, c, e, d, lane, next.active[i]);
      SiftedNotQueued(cfg, h, c, d, lane, next.active[i]);
    }
  }

  lemma {:induction false} BreakPresent(cfg: Limits, h: History, c: Candle, e: Option<Event>, d: Direction, lane: Lane)
    requires ValidLimits(cfg) && Synced(cfg, h) && Sound(cfg, d, lane, h) && Present(cfg, lane, h) && Went(e, d)
    requires forall n <- h.evicted :: n <= |h.bars|
    ensures Present(cfg, NextLane(cfg, h, c, e, d, lane),
                    Grown(h, c, e).(evicted := h.evicted + Lost(cfg, h, c, e, d, lane)))
  {
    var all, next := Confirming(cfg, h, c, d, lane), NextLane(cfg, h, c, e, d, lane);
    BreakLaneAscends(cfg, h, c, e, d, lane);
    LastOfExact(all, cfg.maxBlocks);
    KeptNotLost(all, cfg.maxBlocks);
    assert next.active == LastOf(all, cfg.maxBlocks) && next.pending == [];
    forall i | 0 <= i < |next.active|
      ensures next.active[i].born !in h.evicted + Lost(cfg, h, c, e, d, lane)
              && Proven(cfg, Grown(h, c, e), next.active[i])
    {
      assert next.active[i] in next.active && next.active[i] in all;
      ConfirmingProven(cfg, h, c, e, d, lane, next.active[i]);
      ConfirmingNotLost(cfg, h, c, e, d, lane, next.active[i]);
    }
  }

  lemma {:induction false} ConfirmingNotLost(cfg: Limits, h: History, c: Candle, e: Option<Event>, d: Direction,
                                             lane: Lane, ob: Block)
    requires ValidLimits(cfg) && Synced(cfg, h) && Sound(cfg, d, lane, h) && Present(cfg, lane, h) && Went(e, d)
    requires forall n <- h.evicted :: n <= |h.bars|
    requires ob in Confirming(cfg, h, c, d, lane)
    ensures ob.born !in h.evicted && ob.born !in PushedOut(Queue(cfg, h, c, d, lane), MAX_PENDING)
  {
    if ob in Sift(cfg, lane.active, |h.bars| + 1, c) {
      SiftedProven(cfg, h, c, e, d, lane, ob);
      SiftedNotQueued(cfg, h, c, d, lane, ob);
    } else {
      var q, kept := Queue(cfg, h, c, d, lane), KeptQueue(cfg, h, c, d, lane);
      WithinExact(cfg, kept, |h.bars| + 1);
      QueueSound(cfg, h, c, d, lane);
      LastOfExact(q, MAX_PENDING);
      KeptNotLost(q, MAX_PENDING);
      CandidateNotEvicted(cfg, h, c, d, lane, ob);
      var j :| 0 <= j < |kept| && kept[j] == ob;
    }
  }

  lemma {:induction false} NextPresent(cfg: Limits, h: History, c: Candle, e: Option<Event>, d: Direction, lane: Lane)
    requires ValidLimits(cfg) && Synced(cfg, h) && Sound(cfg, d, lane, h) && Present(cfg, lane, h)
    requires forall n <- h.evicted :: n <= |h.bars|
    ensures Present(cfg, NextLane(cfg, h, c, e, d, lane),
                    Grown(h, c, e).(evicted := h.evicted + Lost(cfg, h, c, e, d, lane)))
  {
    if Went(e, d) {
      BreakPresent(cfg, h, c, e, d, lane);
    } else {
      QuietPresent(cfg, h, c, e, d, lane);
    }
  }

  /** Whatever is queued in a direction was born in that direction. */
  lemma {:induction false} NextBore(cfg: Limits, h: History, c: Candle, e: Option<Event>, d: Direction, lane: Lane,
                                    ob: Block)
    requires ValidLimits(cfg) && Synced(cfg, h) && Sound(cfg, d, lane, h) && Present(cfg, lane, h)
    requires var next := NextLane(cfg, h, c, e, d, lane); ob in next.pending || ob in next.active
    ensures Bore(cfg, h.bars + [c], h.events + [e], d, ob.born, false)
  {
    var next := NextLane(cfg, h, c, e, d, lane);
    if Went(e, d) {
      BreakLaneAscends(cfg, h, c, e, d, lane);
      LastOfExact(Confirming(cfg, h, c, d, lane), cfg.maxBlocks);
      ConfirmingProven(cfg, h, c, e, d, lane, ob);
    } else if ob in next.active {
      SiftedProven(cfg, h, c, e, d, lane, ob);
    } else {
      var q := KeptQueue(cfg, h, c, d, lane);
      KeptQueueIs(cfg, h, c, d, lane);
      DropStaleExact(cfg, q, |h.bars| + 1);
      WithinExact(cfg, q, |h.bars| + 1);
      CandidateBore(cfg, h, c, e, d, ob);
    }
  }

  /** What one lane loses is not in the other, because a bar gives birth to one block at most. */
  lemma {:induction false} OtherLaneSafe(cfg: Limits, t: Zones, h: History, c: Candle, e: Option<Event>, d: Direction)
    requires ValidLimits(cfg) && Inv(cfg, t, h) && Explained(cfg, t, h)
    ensures var next := NextLane(cfg, h, c, e, d, LaneOf(t, d));
            var lost := Lost(cfg, h, c, e, Opposite(d), LaneOf(t, Opposite(d)));
            NoneIn(next.pending, lost) && NoneIn(next.active, lost)
  {
    var next := NextLane(cfg, h, c, e, d, LaneOf(t, d));
    var lost := Lost(cfg, h, c, e, Opposite(d), LaneOf(t, Opposite(d)));
    forall ob | ob in next.pending || ob in next.active ensures ob.born !in lost {
      NextBore(cfg, h, c, e, d, LaneOf(t, d), ob);
      if ob.born in lost {
        LostIsCrowded(cfg, h, c, e, Opposite(d), LaneOf(t, Opposite(d)), ob.born);
      }
    }
  }

  lemma {:induction false} LanePresent(cfg: Limits, t: Zones, h: History, c: Candle, e: Option<Event>, d: Direction)
    requires ValidLimits(cfg) && Inv(cfg, t, h) && Explained(cfg, t, h)
    ensures Present(cfg, NextLane(cfg, h, c, e, d, LaneOf(t, d)), Fed(cfg, t, h, c, e))
  {
    forall n | n in h.evicted ensures n <= |h.bars| {
      assert Crowded(cfg, h.bars, h.events, n);
    }
    NextPresent(cfg, h, c, e, d, LaneOf(t, d));
    OtherLaneSafe(cfg, t, h, c, e, d);
    var next, h1, h' := NextLane(cfg, h, c, e, d, LaneOf(t, d)), Grown(h, c, e), Fed(cfg, t, h, c, e);
    forall i | 0 <= i < |next.active| ensures Proven(cfg, h', next.active[i]) {
      assert Proven(cfg, h1.(evicted := h.evicted + Lost(cfg, h, c, e, d, LaneOf(t, d))), next.active[i]);
    }
  }

  lemma {:induction false} AdvanceExplained(cfg: Limits, t: Zones, h: History, c: Candle, e: Option<Event>)
    requires ValidLimits(cfg) && Inv(cfg, t, h) && Explained(cfg, t, h)
    ensures Explained(cfg, Advance(cfg, t, c, e), Fed(cfg, t, h, c, e))
  {
    LanePresent(cfg, t, h, c, e, Long);
    LanePresent(cfg, t, h, c, e, Short);
    var h' := Fed(cfg, t, h, c, e);
    forall n | n in h'.evicted ensures Crowded(cfg, h'.bars, h'.events, n) {
      if n in h.evicted {
        CrowdedStays(cfg, h.bars, h.events, c, e, n);
      } else if n in Lost(cfg, h, c, e, Long, t.longs) {
        LostIsCrowded(cfg, h, c, e, Long, t.longs, n);
      } else {
        LostIsCrowded(cfg, h, c, e, Short, t.shorts, n);
      }
    }
  }

  lemma {:induction false} PoiExplained(cfg: Limits, t: Zones, h: History, lo: real, hi: real, d: Direction)
    requires ValidLimits(cfg) && Inv(cfg, t, h) && Explained(cfg, t, h)
    ensures Explained(cfg, PoiAt(t, lo, hi, d).0, Given(h, PoiAt(t, lo, hi, d).1))
    ensures var r := PoiAt(t, lo, hi, d).1; r.Some? ==> r.value.born !in h.evicted
  {
    var lane := LaneOf(t, d);
    var i := Pick(lane.active, lo, hi);
    if i < |lane.active| {
      SpendPresent(cfg, h, lane, i);
      OtherPresent(cfg, h, LaneOf(t, Opposite(d)), Some(lane.active[i]));
    }
  }

  lemma {:induction false} SpendPresent(cfg: Limits, h: History, lane: Lane, i: nat)
    requires cfg.atrPeriod >= 1 && Present(cfg, lane, h) && i < |lane.active|
    ensures Present(cfg, Spend(lane, i), Given(h, Some(lane.active[i])))
  {
    var next, h' := Spend(lane, i), Given(h, Some(lane.active[i]));
    forall j | 0 <= j < |next.active| ensures next.active[j].born !in h'.evicted && Proven(cfg, h', next.active[j]) {
      assert Proven(cfg, h, lane.active[j]);
      assert Unspent(next.active[j]) == Unspent(lane.active[j]);
    }
  }

  lemma {:induction false} OtherPresent(cfg: Limits, h: History, lane: Lane, r: Option<Block>)
    requires cfg.atrPeriod >= 1 && Present(cfg, lane, h)
    ensures Present(cfg, lane, Given(h, r))
  {
    var h' := Given(h, r);
    forall j | 0 <= j < |lane.active| ensures Proven(cfg, h', lane.active[j]) {
      assert Proven(cfg, h, lane.active[j]);
    }
  }

  // ------------------------------------------------------------------ runs

  lemma {:induction false} RunExplained(cfg: Limits, ops: seq<Op>)
    requires ValidLimits(cfg)
    ensures Explained(cfg, OrderBlocks.Run(cfg, ops).t, OrderBlocks.Run(cfg, ops).h)
    decreases |ops|
  {
    if ops != [] {
      var most := ops[..|ops| - 1];
      RunKeeps(cfg, most);
      RunExplained(cfg, most);
      var w := OrderBlocks.Run(cfg, most);
      match ops[|ops| - 1]
      case Bar(c, e) => AdvanceExplained(cfg, w.t, w.h, c, e);
      case Ask(lo, hi, d) => PoiExplained(cfg, w.t, w.h, lo, hi, d);
    }
  }

  /** A block of direction `d` that overlaps the range and was left by a displacement bar, was confirmed
      by a break within `confirm` bars, has not been touched or closed through since, has not expired,
      has not been handed out, and has not been pushed out of the bounded queues. */
  predicate Available(cfg: Limits, h: History, ob: Block, lo: real, hi: real, d: Direction)
    requires cfg.atrPeriod >= 1
  {
    Live(cfg, h, ob) && ob.direction == d && Overlaps(ob, lo, hi) && ob.born !in h.evicted
  }

  /** After any run, asking returns the latest available block, and none exactly when there is none. */
  lemma {:induction false} AskExact(cfg: Limits, ops: seq<Op>, lo: real, hi: real, d: Direction)
    requires ValidLimits(cfg)
    ensures var w := OrderBlocks.Run(cfg, ops);
            var r := PoiAt(w.t, lo, hi, d).1;
            && (r.Some? ==>
                  && Available(cfg, w.h, r.value, lo, hi, d)
                  && (cfg.confirm < cfg.expiry ==> |w.h.bars| - r.value.born < cfg.expiry))
            && (forall ob: Block :: Available(cfg, w.h, ob, lo, hi, d) ==> r.Some? && ob.born <= r.value.born)
            && (r.None? <==> forall ob: Block :: !Available(cfg, w.h, ob, lo, hi, d))
  {
    RunKeeps(cfg, ops);
    RunExplained(cfg, ops);
    var w := OrderBlocks.Run(cfg, ops);
    PoiExact(cfg, w.t, w.h, lo, hi, d);
    PoiExplained(cfg, w.t, w.h, lo, hi, d);
    var r := PoiAt(w.t, lo, hi, d).1;
    if r.Some? {
      assert Available(cfg, w.h, r.value, lo, hi, d);
    }
  }

  /** After any run, what has been pushed out had to go: MAX_PENDING blocks of its direction were born
      after it while it was a candidate, or it was confirmed and `maxBlocks` later ones of its
      direction were confirmed as well. */
  lemma {:induction false} EvictedWereCrowded(cfg: Limits, ops: seq<Op>, n: nat)
    requires ValidLimits(cfg) && n in OrderBlocks.Run(cfg, ops).h.evicted
    ensures var h := OrderBlocks.Run(cfg, ops).h; Crowded(cfg, h.bars, h.events, n)
  {
    RunExplained(cfg, ops);
  }
}
