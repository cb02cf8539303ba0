/** The value area of a profile and its high and low nodes in volumes. */
module ProfileVolumes {
  import opened Prelude
  import opened Profile

  /** A row's volume, none if it holds nothing. */
  function Vol(h: Hist, r: int): real {
    if r in h then h[r] else 0.0
  }

  function Times(a: real, b: real): real {
    a * b
  }

  // ------------------------------------------------------------------ the value area

  /** The volume of rows lo..hi. */
  function VolOf(h: Hist, lo: int, hi: int): real
    decreases hi - lo
  {
    if hi < lo then 0.0 else Vol(h, lo) + VolOf(h, lo + 1, hi)
  }

  predicate Enough(cfg: Config, s: State, lo: int, hi: int) {
    VolOf(s.hist, lo, hi) >= Times(cfg.valueAreaPct, s.total)
  }

  /** From rows lo..hi of the span to more: the two next rows on the side where these are heavier, or the one left
      there. */
  predicate Widens(cfg: Config, s: State, from: (int, int), to: (int, int))
    requires s.span.Some?
  {
    var (mn, mx) := s.span.value;
    var (lo, hi) := from;
    var up, dn := Vol(s.hist, hi + 1) + Vol(s.hist, hi + 2), Vol(s.hist, lo - 1) + Vol(s.hist, lo - 2);
    if hi < mx && (lo <= mn || up > dn || (up == dn && cfg.tieUp)) then
      to == (lo, if hi + 2 <= mx then hi + 2 else mx)
    else mn < lo && to == (if mn <= lo - 2 then lo - 2 else mn, hi)
  }

  /** Area by area until there is enough. */
  predicate GrowsTo(cfg: Config, s: State, areas: seq<(int, int)>, end: (int, int))
    requires s.span.Some?
  {
    && areas != [] && areas[|areas| - 1] == end && Enough(cfg, s, end.0, end.1)
    && forall i :: 0 <= i < |areas| - 1 ==>
         !Enough(cfg, s, areas[i].0, areas[i].1) && Widens(cfg, s, areas[i], areas[i + 1])
  }

  lemma {:induction false} VolOfSnoc(h: Hist, lo: int, hi: int)
    requires lo <= hi
    ensures VolOf(h, lo, hi) == VolOf(h, lo, hi - 1) + Vol(h, hi)
    decreases hi - lo
  {
    if lo < hi {
      VolOfSnoc(h, lo + 1, hi);
    }
  }

  lemma {:induction false} VolOfIs(h: Hist, lo: int, hi: int)
    ensures RangeSum(h, lo, hi) == VolOf(h, lo, hi)
    decreases hi - lo
  {
    if lo <= hi {
      VolOfIs(h, lo, hi - 1);
      VolOfSnoc(h, lo, hi);
      VolIs(h, hi);
    }
  }

  lemma GrownIs(cfg: Config, s: State, lo: int, hi: int)
    requires s.span.Some? && s.span.value.0 <= lo <= hi <= s.span.value.1
    requires s.span.value.0 < lo || hi < s.span.value.1
    ensures Widens(cfg, s, (lo, hi), Grown(AreaOf(cfg, s), lo, hi))
  {
  }

  lemma {:induction false} ExpandGrows(cfg: Config, s: State, lo: int, hi: int) returns (areas: seq<(int, int)>)
    requires s.span.Some? && s.span.value.0 <= lo <= hi <= s.span.value.1
    requires Enough(cfg, s, s.span.value.0, s.span.value.1)
    ensures areas != [] && areas[0] == (lo, hi) && GrowsTo(cfg, s, areas, Expand(AreaOf(cfg, s), lo, hi))
    decreases lo - s.span.value.0 + s.span.value.1 - hi
  {
    var a := AreaOf(cfg, s);
    FinishedIs(cfg, s, lo, hi);
    if Finished(a, lo, hi) {
      areas := [(lo, hi)];
    } else {
      GrownIs(cfg, s, lo, hi);
      var rest := ExpandGrows(cfg, s, Grown(a, lo, hi).0, Grown(a, lo, hi).1);
      GrowsMore(cfg, s, (lo, hi), rest, Expand(a, lo, hi));
      areas := [(lo, hi)] + rest;
    }
  }

  lemma FinishedIs(cfg: Config, s: State, lo: int, hi: int)
    requires s.span.Some? && s.span.value.0 <= lo <= hi <= s.span.value.1
    requires Enough(cfg, s, s.span.value.0, s.span.value.1)
    ensures Finished(AreaOf(cfg, s), lo, hi) <==> Enough(cfg, s, lo, hi)
  {
    VolOfIs(s.hist, lo, hi);
  }

  lemma {:induction false} GrowsMore(cfg: Config, s: State, first: (int, int), rest: seq<(int, int)>, end: (int, int))
    requires s.span.Some? && GrowsTo(cfg, s, rest, end)
    requires !Enough(cfg, s, first.0, first.1) && Widens(cfg, s, first, rest[0])
    ensures GrowsTo(cfg, s, [first] + rest, end)
  {
    var areas := [first] + rest;
    forall i | 0 <= i < |areas| - 1
      ensures !Enough(cfg, s, areas[i].0, areas[i].1) && Widens(cfg, s, areas[i], areas[i + 1])
    {
      assert i > 0 ==> areas[i] == rest[i - 1] && areas[i + 1] == rest[i];
    }
  }

  /** The value area comes of its point of control by widening until it holds the wanted share of all volume, and no
      further. */
  lemma {:induction false} AreaInVolumes(cfg: Config, s: State, poc: int) returns (areas: seq<(int, int)>)
    requires ValidConfig(cfg) && Inv(s) && s.span.Some? && IsPoc(s.hist, poc)
    ensures areas != [] && areas[0] == (poc, poc) && GrowsTo(cfg, s, areas, Expand(AreaOf(cfg, s), poc, poc))
  {
    var (mn, mx) := s.span.value;
    RangeSumPositive(s.hist, mn, mx);
    VolOfIs(s.hist, mn, mx);
    TargetReachable(cfg, s);
    areas := ExpandGrows(cfg, s, poc, poc);
  }

  // ------------------------------------------------------------------ nodes

  /** Heavy enough against the heaviest row, and no lighter than the rows next to it within the span. */
  predicate Stands(cfg: Config, s: State, poc: int, r: int)
    requires s.span.Some?
  {
    var (mn, mx) := s.span.value;
    && mn <= r <= mx && Vol(s.hist, r) >= Times(cfg.hvnFrac, Vol(s.hist, poc))
    && (mn < r ==> Vol(s.hist, r - 1) <= Vol(s.hist, r))
    && (r < mx ==> Vol(s.hist, r + 1) <= Vol(s.hist, r))
  }

  /** The lightest row between a and b, the lowest of several. */
  predicate Lightest(h: Hist, a: int, b: int, v: int) {
    && a < v < b
    && (forall q :: a < q < v ==> Vol(h, v) < Vol(h, q))
    && (forall q :: v < q < b ==> Vol(h, v) <= Vol(h, q))
  }

  /** At most that fraction of the mean volume of the rows that hold any. */
  predicate Thin(cfg: Config, s: State, v: int) {
    s.hist != map[] && Times(Vol(s.hist, v), |s.hist| as real) <= Times(cfg.lvnFrac, s.total)
  }

  lemma VolIs(h: Hist, r: int)
    ensures At(h, r) == Vol(h, r)
  {
  }

  /** The rows found first are those that stand. */
  lemma PeakStands(cfg: Config, s: State, poc: int, r: int)
    requires Inv(s) && s.span.Some?
    ensures var (mn, mx) := s.span.value;
            IsPeak(s.hist, mn, mx, HighThreshold(cfg, s, poc), r) <==> Stands(cfg, s, poc, r)
  {
    var (mn, mx) := s.span.value;
    assert mn <= r <= mx ==> At(s.hist, r) >= 0.0;
  }

  /** Standing rows next to each other hold the same. */
  lemma {:induction false} RunIsLevel(cfg: Config, s: State, poc: int, rows: seq<int>, r: int, q: int)
    requires s.span.Some? && (forall x :: x in rows ==> Stands(cfg, s, poc, x)) && r <= q && SameRun(rows, r, q)
    ensures Vol(s.hist, r) == Vol(s.hist, q)
    decreases q - r
  {
    assert r in rows && q in rows;
    if r < q {
      assert SameRun(rows, r, q - 1);
      RunIsLevel(cfg, s, poc, rows, r, q - 1);
      assert q - 1 in rows;
    }
  }

  /** So the row that stands for its run is its lowest. */
  lemma {:induction false} TopIsLowest(cfg: Config, s: State, poc: int, rows: seq<int>, r: int)
    requires s.span.Some? && forall x :: x in rows ==> Stands(cfg, s, poc, x)
    ensures IsRunTop(s.hist, rows, r) <==> r in rows && r - 1 !in rows
  {
    if r in rows && r - 1 in rows {
      assert SameRun(rows, r, r - 1) && SameRun(rows, r - 1, r);
      RunIsLevel(cfg, s, poc, rows, r - 1, r);
      assert !Outweighs(s.hist, r, r - 1);
    } else if r in rows {
      forall q | SameRun(rows, r, q) ensures Outweighs(s.hist, r, q) {
        assert q < r ==> r - 1 in rows;
        RunIsLevel(cfg, s, poc, rows, r, q);
      }
    }
  }

  lemma ValleyIs(h: Hist, a: int, b: int, v: int)
    ensures IsValley(h, a, b, v) <==> Lightest(h, a, b, v)
  {
    if Lightest(h, a, b, v) {
      forall q | a < q < b ensures At(h, v) < At(h, q) || (At(h, v) == At(h, q) && v <= q) {
        assert Vol(h, v) <= Vol(h, q);
      }
    }
    if IsValley(h, a, b, v) {
      forall q | a < q < b ensures (q < v ==> Vol(h, v) < Vol(h, q)) && (v < q ==> Vol(h, v) <= Vol(h, q)) {
        assert At(h, v) < At(h, q) || (At(h, v) == At(h, q) && v <= q);
      }
    }
  }

  /** The rows of a range that hold something. */
  function Held(h: Hist, lo: int, hi: int): set<int> {
    set r | r in h && lo <= r <= hi && h[r] > 0.0
  }

  lemma {:induction false} CountIs(h: Hist, lo: int, hi: int)
    ensures CountPositive(h, lo, hi) == |Held(h, lo, hi)|
    decreases hi - lo
  {
    if hi < lo {
      assert Held(h, lo, hi) == {};
    } else {
      CountIs(h, lo, hi - 1);
      assert Held(h, lo, hi) == Held(h, lo, hi - 1) + if At(h, hi) > 0.0 then {hi} else {};
    }
  }

  lemma ThinIs(cfg: Config, s: State, v: int)
    requires Inv(s) && s.span.Some?
    ensures At(s.hist, v) <= LowThreshold(cfg, s) <==> Thin(cfg, s, v)
  {
    var (mn, mx) := s.span.value;
    CountIs(s.hist, mn, mx);
    assert Held(s.hist, mn, mx) == s.hist.Keys;
    assert |s.hist| == |s.hist.Keys| && mn in s.hist.Keys;
    MeanIs(At(s.hist, v), cfg.lvnFrac, s.total, |s.hist|);
  }

  lemma MeanIs(x: real, frac: real, total: real, n: int)
    requires n >= 1
    ensures x <= frac * (total / n as real) <==> Times(x, n as real) <= Times(frac, total)
  {
    var k, y := n as real, frac * (total / n as real);
    assert y * k == frac * (total / k * k) == frac * total;
    assert (y - x) * k == y * k - x * k;
    if x > y {
      assert (x - y) * k > 0.0;
    }
  }

  /** The high nodes are the lowest rows of the stretches that stand, the low nodes the lightest rows between
      consecutive high ones, where they are thin enough. */
  lemma {:induction false} NodesInVolumes(cfg: Config, s: State, poc: int, peaks: seq<int>, hvn: seq<int>,
                                          lvn: seq<int>)
    requires Inv(s) && s.span.Some? && AreNodes(cfg, s, poc, peaks, hvn, lvn)
    ensures Ascending(hvn) && Ascending(lvn)
    ensures forall r: int :: r in hvn <==> Stands(cfg, s, poc, r) && !Stands(cfg, s, poc, r - 1)
    ensures forall v: int ::
              v in lvn <==>
              Thin(cfg, s, v) && exists k :: 0 <= k < |hvn| - 1 && Lightest(s.hist, hvn[k], hvn[k + 1], v)
  {
    forall r: int ensures r in peaks <==> Stands(cfg, s, poc, r) {
      PeakStands(cfg, s, poc, r);
    }
    forall r: int ensures r in hvn <==> Stands(cfg, s, poc, r) && !Stands(cfg, s, poc, r - 1) {
      TopIsLowest(cfg, s, poc, peaks, r);
    }
    forall v: int
      ensures v in lvn <==>
              Thin(cfg, s, v) && exists k :: 0 <= k < |hvn| - 1 && Lightest(s.hist, hvn[k], hvn[k + 1], v)
    {
      ThinIs(cfg, s, v);
      forall k | 0 <= k < |hvn| - 1
        ensures IsValley(s.hist, hvn[k], hvn[k + 1], v) <==> Lightest(s.hist, hvn[k], hvn[k + 1], v)
      {
        ValleyIs(s.hist, hvn[k], hvn[k + 1], v);
      }
    }
  }
}
