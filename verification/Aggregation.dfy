/** Candles of a longer timeframe: one bar at a time as the strategy engine builds them, and all at
    once as the simulator does. */
module Aggregation {
  import opened Prelude
  import opened Models

  const DAY_MIN := 1440

  /** Start of the bucket that holds `ts`: minutes since midnight, floored to the timeframe. */
  function Floored(minutes: int, ts: int): int
    requires minutes >= 1
  {
    var mins := (ts % DAY) / 60;
    DateOf(ts) * DAY + (mins - mins % minutes) * 60
  }

  /** What a bucket holds when `c` opens it. */
  function Opening(minutes: int, c: Candle): Candle
    requires minutes >= 1
  {
    c.(ts := Floored(minutes, c.ts))
  }

  function Merge(b: Candle, c: Candle): Candle {
    b.(high := Max(b.high, c.high), low := Min(b.low, c.low), close := c.close, volume := b.volume + c.volume)
  }

  // ------------------------------------------------------------------ one bar at a time

  /** The bucket in progress after `c`, and the one `c` completes. */
  function Fold(minutes: int, cur: Option<Candle>, c: Candle): (Option<Candle>, Option<Candle>)
    requires minutes >= 1
  {
    if cur.None? then (Some(Opening(minutes, c)), None)
    else if Floored(minutes, c.ts) == cur.value.ts then (Some(Merge(cur.value, c)), None)
    else (Some(Opening(minutes, c)), cur)
  }

  datatype Stream = Stream(cur: Option<Candle>, done: seq<Candle>)

  function Streamed(minutes: int, cs: seq<Candle>): Stream
    requires minutes >= 1
    decreases |cs|
  {
    if cs == [] then Stream(None, [])
    else
      var s := Streamed(minutes, cs[..|cs| - 1]);
      var (cur, done) := Fold(minutes, s.cur, cs[|cs| - 1]);
      Stream(cur, s.done + if done.Some? then [done.value] else [])
  }

  /** Everything completed, and the bucket in progress. */
  function WithDeveloping(s: Stream): seq<Candle> {
    s.done + if s.cur.Some? then [s.cur.value] else []
  }

  // ------------------------------------------------------------------ all at once

  /** The buckets of a list of bars; a bar whose bucket lies before the current one is dropped. */
  function Buckets(minutes: int, cs: seq<Candle>): seq<Candle>
    requires minutes >= 1
    decreases |cs|
  {
    if cs == [] then [] else Add(minutes, Buckets(minutes, cs[..|cs| - 1]), cs[|cs| - 1])
  }

  function Add(minutes: int, bs: seq<Candle>, c: Candle): seq<Candle>
    requires minutes >= 1
  {
    if bs == [] then [Opening(minutes, c)]
    else
      var b, at := bs[|bs| - 1], Floored(minutes, c.ts);
      if at == b.ts then bs[..|bs| - 1] + [Merge(b, c)]
      else if at > b.ts then bs + [Opening(minutes, c)]
      else bs
  }

  function Aggregate(cs: seq<Candle>, minutes: int): seq<Candle> {
    if minutes <= 1 then cs else Buckets(minutes, cs)
  }

  // ------------------------------------------------------------------ order of input

  predicate Ascending(cs: seq<Candle>) {
    forall i, j :: 0 <= i < j < |cs| ==> cs[i].ts < cs[j].ts
  }

  /** No bar belongs to a bucket before its predecessor's. */
  predicate InOrder(minutes: int, cs: seq<Candle>)
    requires minutes >= 1
  {
    forall i :: 0 < i < |cs| ==> Floored(minutes, cs[i - 1].ts) <= Floored(minutes, cs[i].ts)
  }

  lemma FloorWithin(x: int, m: int)
    requires m >= 1
    ensures 0 <= x % m < m && x - x % m == (x / m) * m
  {
  }

  lemma TimesMonotone(p: int, q: int, m: int)
    requires m >= 1 && p <= q
    ensures p * m <= q * m
  {
  }

  lemma QuotientBelow(x: int, m: int, q: int)
    requires m >= 1 && x / m < q
    ensures x < q * m
  {
    FloorWithin(x, m);
    TimesMonotone(x / m + 1, q, m);
  }

  lemma QuotientAbove(x: int, m: int, q: int)
    requires m >= 1 && x / m > q
    ensures x >= (q + 1) * m
  {
    FloorWithin(x, m);
    TimesMonotone(q + 1, x / m, m);
  }

  lemma FloorIs(x: int, m: int, q: int)
    requires m >= 1 && q * m <= x < (q + 1) * m
    ensures x - x % m == q * m
  {
    FloorWithin(x, m);
    if x / m < q {
      QuotientBelow(x, m, q);
    } else if x / m > q {
      QuotientAbove(x, m, q);
    }
  }

  lemma FloorMonotone(x: int, y: int, m: int)
    requires m >= 1 && x <= y
    ensures x - x % m <= y - y % m
  {
    FloorWithin(x, m);
    FloorWithin(y, m);
    if x / m > y / m {
      QuotientAbove(x, m, y / m);
    } else {
      TimesMonotone(x / m, y / m, m);
    }
  }

  lemma FlooredMonotone(minutes: int, s: int, t: int)
    requires minutes >= 1 && s <= t
    ensures Floored(minutes, s) <= Floored(minutes, t)
  {
    var x, y := (s % DAY) / 60, (t % DAY) / 60;
    FloorWithin(x, minutes);
    FloorWithin(y, minutes);
    if DateOf(s) == DateOf(t) {
      FloorMonotone(x, y, minutes);
    } else {
      assert DateOf(s) + 1 <= DateOf(t);
      assert x - x % minutes <= x < DAY_MIN && y - y % minutes >= 0 by { FloorMonotone(0, y, minutes); }
    }
  }

  lemma AscendingIsInOrder(minutes: int, cs: seq<Candle>)
    requires minutes >= 1 && Ascending(cs)
    ensures InOrder(minutes, cs)
  {
    forall i | 0 < i < |cs| ensures Floored(minutes, cs[i - 1].ts) <= Floored(minutes, cs[i].ts) {
      FlooredMonotone(minutes, cs[i - 1].ts, cs[i].ts);
    }
  }

  // ------------------------------------------------------------------ streaming equals batch

  /** After bars in order, the last bucket is that of the last bar. */
  lemma {:induction false} LastBucket(minutes: int, cs: seq<Candle>)
    requires minutes >= 1 && cs != [] && InOrder(minutes, cs)
    ensures var bs := Buckets(minutes, cs); bs != [] && bs[|bs| - 1].ts == Floored(minutes, cs[|cs| - 1].ts)
    decreases |cs|
  {
    var most := cs[..|cs| - 1];
    if most != [] {
      LastBucket(minutes, most);
      assert Floored(minutes, cs[|cs| - 2].ts) <= Floored(minutes, cs[|cs| - 1].ts);
    }
  }

  lemma {:induction false} StreamIsBuckets(minutes: int, cs: seq<Candle>)
    requires minutes >= 1 && InOrder(minutes, cs)
    ensures WithDeveloping(Streamed(minutes, cs)) == Buckets(minutes, cs)
    ensures Streamed(minutes, cs).cur.None? <==> cs == []
    decreases |cs|
  {
    if cs != [] {
      var most, c := cs[..|cs| - 1], cs[|cs| - 1];
      StreamIsBuckets(minutes, most);
      if most != [] {
        LastBucket(minutes, most);
        assert Floored(minutes, cs[|cs| - 2].ts) <= Floored(minutes, c.ts);
      }
    }
  }

  predicate Rising(bs: seq<Candle>) {
    forall i, j :: 0 <= i < j < |bs| ==> bs[i].ts < bs[j].ts
  }

  lemma {:induction false} BucketsRise(minutes: int, cs: seq<Candle>)
    requires minutes >= 1
    ensures Rising(Buckets(minutes, cs))
    decreases |cs|
  {
    if cs != [] {
      BucketsRise(minutes, cs[..|cs| - 1]);
    }
  }

  lemma {:induction false} RisingStreamIsInOrder(minutes: int, cs: seq<Candle>)
    requires minutes >= 1 && Rising(WithDeveloping(Streamed(minutes, cs)))
    ensures InOrder(minutes, cs)
    ensures cs != [] ==>
              var cur := Streamed(minutes, cs).cur; cur.Some? && cur.value.ts == Floored(minutes, cs[|cs| - 1].ts)
    decreases |cs|
  {
    if cs != [] {
      var most, n := cs[..|cs| - 1], |cs| - 1;
      var s, s' := Streamed(minutes, most), Streamed(minutes, cs);
      var bs, bs' := WithDeveloping(s), WithDeveloping(s');
      assert forall i :: 0 <= i < |bs| ==> bs[i].ts == bs'[i].ts;
      RisingStreamIsInOrder(minutes, most);
      if n > 0 {
        assert bs[|bs| - 1].ts == Floored(minutes, cs[n - 1].ts);
        assert bs'[|bs'| - 1].ts == Floored(minutes, cs[n].ts);
      }
    }
  }

  /** The streaming aggregator's completed bars and its developing one are the batch result exactly
      when no bar falls in a bucket before its predecessor's. */
  lemma StreamMeetsBatch(minutes: int, cs: seq<Candle>)
    requires minutes >= 2
    ensures WithDeveloping(Streamed(minutes, cs)) == Aggregate(cs, minutes) <==> InOrder(minutes, cs)
  {
    if InOrder(minutes, cs) {
      StreamIsBuckets(minutes, cs);
    }
    if WithDeveloping(Streamed(minutes, cs)) == Aggregate(cs, minutes) {
      BucketsRise(minutes, cs);
      RisingStreamIsInOrder(minutes, cs);
    }
  }

  predicate Aligned(cs: seq<Candle>) {
    forall i :: 0 <= i < |cs| ==> cs[i].ts % 60 == 0
  }

  lemma MinuteFloor(ts: int)
    requires ts % 60 == 0
    ensures Floored(1, ts) == ts
  {
    var rest := ts % DAY;
    assert ts == DateOf(ts) * DAY + rest;
    WholeMinutes(rest);
    FloorIs(rest / 60, 1, rest / 60);
  }

  lemma WholeMinutes(seconds: int)
    requires seconds % 60 == 0
    ensures seconds == (seconds / 60) * 60
  {
  }

  lemma {:induction false} MinutesAreThemselves(cs: seq<Candle>)
    requires Ascending(cs) && Aligned(cs)
    ensures Buckets(1, cs) == cs
    decreases |cs|
  {
    if cs != [] {
      var most, c := cs[..|cs| - 1], cs[|cs| - 1];
      MinutesAreThemselves(most);
      MinuteFloor(c.ts);
      if most != [] {
        assert cs[|cs| - 2].ts < c.ts;
      }
      assert most + [c] == cs;
    }
  }

  /** On strictly ascending bars stamped on the minute the two agree for every timeframe, the one
      minute that the batch passes through unchanged included. */
  lemma StreamIsBatch(minutes: int, cs: seq<Candle>)
    requires minutes >= 1 && Ascending(cs) && Aligned(cs)
    ensures WithDeveloping(Streamed(minutes, cs)) == Aggregate(cs, minutes)
  {
    AscendingIsInOrder(minutes, cs);
    StreamIsBuckets(minutes, cs);
    if minutes == 1 {
      MinutesAreThemselves(cs);
    }
  }

  // ------------------------------------------------------------------ what a bucket is

  /** The bars of a list that belong to the bucket starting at `at`. */
  function Members(minutes: int, cs: seq<Candle>, at: int): seq<Candle>
    requires minutes >= 1
    decreases |cs|
  {
    if cs == [] then []
    else
      var c := cs[|cs| - 1];
      Members(minutes, cs[..|cs| - 1], at) + if Floored(minutes, c.ts) == at then [c] else []
  }

  function Volume(cs: seq<Candle>): real
    decreases |cs|
  {
    if cs == [] then 0.0 else Volume(cs[..|cs| - 1]) + cs[|cs| - 1].volume
  }

  /** `b` sums up the bars of `group`: first open, highest high, lowest low, last close, all volume. */
  ghost predicate SumsUp(b: Candle, group: seq<Candle>) {
    && group != []
    && b.open == group[0].open && b.close == group[|group| - 1].close
    && (forall c <- group :: c.high <= b.high) && (exists c <- group :: c.high == b.high)
    && (forall c <- group :: b.low <= c.low) && (exists c <- group :: c.low == b.low)
    && b.volume == Volume(group)
  }

  lemma OneSumsUp(b: Candle, c: Candle)
    requires b == c.(ts := b.ts)
    ensures SumsUp(b, [c])
  {
    var group := [c];
    assert group[..0] == [];
    assert Volume(group) == Volume(group[..0]) + c.volume;
    assert c in group;
  }

  lemma MergeSumsUp(b: Candle, group: seq<Candle>, c: Candle)
    requires SumsUp(b, group)
    ensures SumsUp(Merge(b, c), group + [c])
  {
    var more, m := group + [c], Merge(b, c);
    assert more[..|group|] == group;
    var top :| top in group && top.high == b.high;
    var bottom :| bottom in group && bottom.low == b.low;
    assert top in more && bottom in more && c in more;
    assert m.high == b.high || m.high == c.high;
    assert m.low == b.low || m.low == c.low;
  }

  lemma {:induction false} NoMembers(minutes: int, cs: seq<Candle>, at: int)
    requires minutes >= 1 && InOrder(minutes, cs)
    requires cs != [] ==> Floored(minutes, cs[|cs| - 1].ts) < at
    ensures Members(minutes, cs, at) == []
    decreases |cs|
  {
    if cs != [] {
      var most := cs[..|cs| - 1];
      assert most != [] ==> Floored(minutes, cs[|cs| - 2].ts) <= Floored(minutes, cs[|cs| - 1].ts);
      NoMembers(minutes, most, at);
    }
  }

  ghost predicate AllSumUp(minutes: int, cs: seq<Candle>, bs: seq<Candle>)
    requires minutes >= 1
  {
    forall i :: 0 <= i < |bs| ==> SumsUp(bs[i], Members(minutes, cs, bs[i].ts))
  }

  lemma {:induction false} InOrderPrefix(minutes: int, cs: seq<Candle>, c: Candle)
    requires minutes >= 1 && InOrder(minutes, cs + [c])
    ensures InOrder(minutes, cs)
    ensures cs != [] ==> Floored(minutes, cs[|cs| - 1].ts) <= Floored(minutes, c.ts)
  {
    var more := cs + [c];
    assert forall i :: 0 <= i < |cs| ==> more[i] == cs[i];
    assert more[|cs|] == c;
  }

  lemma {:induction false} MembersSnoc(minutes: int, cs: seq<Candle>, c: Candle, at: int)
    requires minutes >= 1
    ensures Members(minutes, cs + [c], at) ==
            Members(minutes, cs, at) + if Floored(minutes, c.ts) == at then [c] else []
  {
    assert (cs + [c])[..|cs|] == cs;
  }

  /** A bar that opens a bucket. */
  lemma {:induction false} OpenSumsUp(minutes: int, cs: seq<Candle>, bs: seq<Candle>, c: Candle)
    requires minutes >= 1 && InOrder(minutes, cs) && AllSumUp(minutes, cs, bs)
    requires cs != [] ==> Floored(minutes, cs[|cs| - 1].ts) < Floored(minutes, c.ts)
    requires forall i :: 0 <= i < |bs| ==> bs[i].ts < Floored(minutes, c.ts)
    ensures AllSumUp(minutes, cs + [c], bs + [Opening(minutes, c)])
  {
    var at, bs' := Floored(minutes, c.ts), bs + [Opening(minutes, c)];
    NoMembers(minutes, cs, at);
    OneSumsUp(Opening(minutes, c), c);
    forall i | 0 <= i < |bs'| ensures SumsUp(bs'[i], Members(minutes, cs + [c], bs'[i].ts)) {
      MembersSnoc(minutes, cs, c, bs'[i].ts);
      assert i < |bs| ==> bs'[i] == bs[i] && Members(minutes, cs, bs[i].ts) + [] == Members(minutes, cs, bs[i].ts);
    }
  }

  /** A bar that joins the last bucket. */
  lemma {:induction false} JoinSumsUp(minutes: int, cs: seq<Candle>, bs: seq<Candle>, c: Candle)
    requires minutes >= 1 && AllSumUp(minutes, cs, bs) && Rising(bs)
    requires bs != [] && bs[|bs| - 1].ts == Floored(minutes, c.ts)
    ensures AllSumUp(minutes, cs + [c], bs[..|bs| - 1] + [Merge(bs[|bs| - 1], c)])
  {
    var n := |bs| - 1;
    var bs' := bs[..n] + [Merge(bs[n], c)];
    MergeSumsUp(bs[n], Members(minutes, cs, bs[n].ts), c);
    forall i | 0 <= i < |bs'| ensures SumsUp(bs'[i], Members(minutes, cs + [c], bs'[i].ts)) {
      MembersSnoc(minutes, cs, c, bs'[i].ts);
      assert i < n ==> bs'[i] == bs[i] && Members(minutes, cs, bs[i].ts) + [] == Members(minutes, cs, bs[i].ts);
    }
  }

  lemma {:induction false} AddSumsUp(minutes: int, cs: seq<Candle>, bs: seq<Candle>, c: Candle)
    requires minutes >= 1 && InOrder(minutes, cs) && AllSumUp(minutes, cs, bs) && Rising(bs)
    requires cs == [] <==> bs == []
    requires cs != [] ==> bs[|bs| - 1].ts == Floored(minutes, cs[|cs| - 1].ts) <= Floored(minutes, c.ts)
    ensures AllSumUp(minutes, cs + [c], Add(minutes, bs, c))
  {
    if bs != [] && bs[|bs| - 1].ts == Floored(minutes, c.ts) {
      JoinSumsUp(minutes, cs, bs, c);
    } else {
      OpenSumsUp(minutes, cs, bs, c);
      assert Add(minutes, bs, c) == bs + [Opening(minutes, c)];
    }
  }

  /** Each bucket of a list in order sums up exactly the bars that belong to it. */
  lemma {:induction false} BucketsExact(minutes: int, cs: seq<Candle>)
    requires minutes >= 1 && InOrder(minutes, cs)
    ensures AllSumUp(minutes, cs, Buckets(minutes, cs))
    decreases |cs|
  {
    if cs != [] {
      var most, c := cs[..|cs| - 1], cs[|cs| - 1];
      assert most + [c] == cs;
      InOrderPrefix(minutes, most, c);
      BucketsExact(minutes, most);
      BucketsRise(minutes, most);
      if most != [] {
        LastBucket(minutes, most);
      }
      AddSumsUp(minutes, most, Buckets(minutes, most), c);
    }
  }

  /** Seconds in so many timeframes. */
  function Steps(minutes: int, q: int): int {
    q * (60 * minutes)
  }

  predicate IsSlot(minutes: int, at: int, ts: int, q: int) {
    at == 86400 * (ts / 86400) + Steps(minutes, q) && at / 86400 == ts / 86400
  }

  /** A whole number of timeframes after the midnight before it, and `ts` within one timeframe from it on the
      same day. */
  ghost predicate HoldsAt(minutes: int, at: int, ts: int) {
    at <= ts < at + 60 * minutes && exists q: nat :: IsSlot(minutes, at, ts, q)
  }

  /** Which bucket a bar belongs to. */
  lemma {:induction false} BucketOf(minutes: int, at: int, ts: int)
    requires minutes >= 1
    ensures Floored(minutes, ts) == at <==> HoldsAt(minutes, at, ts)
  {
    SlotOf(minutes, ts);
    if HoldsAt(minutes, at, ts) {
      var q: nat :| IsSlot(minutes, at, ts, q);
      HeldAt(minutes, ts, q);
    }
  }

  lemma SlotOf(minutes: int, ts: int)
    requires minutes >= 1
    ensures HoldsAt(minutes, Floored(minutes, ts), ts)
  {
    var mins := (ts % DAY) / 60;
    var q := mins / minutes;
    FloorWithin(mins, minutes);
    assert Steps(minutes, q) == 60 * (q * minutes);
    StartWithin(ts, q * minutes);
    assert IsSlot(minutes, Floored(minutes, ts), ts, q);
  }

  /** A start some minutes after midnight and no later than `ts` is on the same day. */
  lemma StartWithin(ts: int, start: int)
    requires 0 <= start <= (ts % DAY) / 60
    ensures var at := 86400 * (ts / 86400) + 60 * start; at <= ts && at / 86400 == ts / 86400
  {
    assert 0 <= 60 * start < 86400;
  }

  lemma HeldAt(minutes: int, ts: int, q: nat)
    requires minutes >= 1
    requires var at := 86400 * (ts / 86400) + Steps(minutes, q); at <= ts < at + 60 * minutes
    ensures Floored(minutes, ts) == 86400 * (ts / 86400) + Steps(minutes, q)
  {
    var x, p := ts % DAY, q * minutes;
    assert Steps(minutes, q) == 60 * p;
    assert p <= x / 60 < p + minutes;
    assert (q + 1) * minutes == p + minutes;
    FloorIs(x / 60, minutes, q);
  }

  lemma {:induction false} MemberIs(minutes: int, cs: seq<Candle>, at: int, c: Candle)
    requires minutes >= 1
    ensures c in Members(minutes, cs, at) <==> c in cs && HoldsAt(minutes, at, c.ts)
    decreases |cs|
  {
    if cs != [] {
      MemberIs(minutes, cs[..|cs| - 1], at, c);
      BucketOf(minutes, at, c.ts);
      assert cs == cs[..|cs| - 1] + [cs[|cs| - 1]];
    }
  }

  /** In time: each bucket sums up the bars, in their order, from its start to one timeframe later on its day. */
  lemma {:induction false} BucketsInTime(minutes: int, cs: seq<Candle>, i: nat) returns (group: seq<Candle>)
    requires minutes >= 1 && InOrder(minutes, cs) && i < |Buckets(minutes, cs)|
    ensures SumsUp(Buckets(minutes, cs)[i], group)
    ensures forall c :: c in group <==> c in cs && HoldsAt(minutes, Buckets(minutes, cs)[i].ts, c.ts)
  {
    var at := Buckets(minutes, cs)[i].ts;
    BucketsExact(minutes, cs);
    group := Members(minutes, cs, at);
    forall c ensures c in group <==> c in cs && HoldsAt(minutes, at, c.ts) {
      MemberIs(minutes, cs, at, c);
    }
  }

  predicate Covered(bs: seq<Candle>, at: int) {
    exists i :: 0 <= i < |bs| && bs[i].ts == at
  }

  /** Every bar belongs to one of the buckets. */
  lemma {:induction false} EveryBarCounted(minutes: int, cs: seq<Candle>, k: nat)
    requires minutes >= 1 && InOrder(minutes, cs) && k < |cs|
    ensures Covered(Buckets(minutes, cs), Floored(minutes, cs[k].ts))
    decreases |cs|
  {
    var most, c, n := cs[..|cs| - 1], cs[|cs| - 1], |cs| - 1;
    var bs, bs' := Buckets(minutes, most), Buckets(minutes, cs);
    if k == n {
      LastBucket(minutes, cs);
      assert bs'[|bs'| - 1].ts == Floored(minutes, c.ts);
    } else {
      assert most + [c] == cs;
      InOrderPrefix(minutes, most, c);
      EveryBarCounted(minutes, most, k);
      var i :| 0 <= i < |bs| && bs[i].ts == Floored(minutes, most[k].ts);
      assert bs'[i].ts == bs[i].ts;
    }
  }

  // ------------------------------------------------------------------ volume

  lemma VolumeSnoc(cs: seq<Candle>, c: Candle)
    ensures Volume(cs + [c]) == Volume(cs) + c.volume
  {
    assert (cs + [c])[..|cs|] == cs;
  }

  /** No volume is lost or made up, whatever the order of the bars. */
  lemma {:induction false} StreamKeepsVolume(minutes: int, cs: seq<Candle>)
    requires minutes >= 1
    ensures Volume(WithDeveloping(Streamed(minutes, cs))) == Volume(cs)
    decreases |cs|
  {
    if cs != [] {
      var most, c := cs[..|cs| - 1], cs[|cs| - 1];
      StreamKeepsVolume(minutes, most);
      var s, s' := Streamed(minutes, most), Streamed(minutes, cs);
      VolumeSnoc(s'.done, s'.cur.value);
      if s.cur.Some? {
        VolumeSnoc(s.done, s.cur.value);
        assert s'.done == s.done || s'.done == s.done + [s.cur.value];
      } else {
        assert s.done + [] == s.done == s'.done;
      }
    }
  }

  /** The batch drops stragglers, so it keeps all volume when the bars are in order. */
  lemma BatchKeepsVolume(minutes: int, cs: seq<Candle>)
    requires minutes >= 1 && InOrder(minutes, cs)
    ensures Volume(Aggregate(cs, minutes)) == Volume(cs)
  {
    StreamKeepsVolume(minutes, cs);
    StreamIsBuckets(minutes, cs);
  }

  // ------------------------------------------------------------------ by way of a shorter timeframe

  lemma FloorOfFloor(x: int, a: int, k: int)
    requires a >= 1 && k >= 1 && a * k >= 1
    ensures (x - x % a) - (x - x % a) % (a * k) == x - x % (a * k)
  {
    var b := a * k;
    var q := x / b;
    FloorWithin(x, b);
    MultipleFloor(x, a, q * k);
    assert (q * k) * a == q * b;
    assert (q + 1) * b == q * b + b;
    FloorWithin(x, a);
    FloorIs(x - x % a, b, q);
  }

  /** Flooring does not go below a multiple that was below before. */
  lemma MultipleFloor(x: int, a: int, n: int)
    requires a >= 1 && n * a <= x
    ensures n * a <= x - x % a
  {
    FloorMonotone(n * a, x, a);
    assert (n + 1) * a == n * a + a;
    FloorIs(n * a, a, n);
  }

  /** Flooring to a timeframe first does not move a bar to another bucket of a multiple of it. */
  lemma FloorTwice(ts: int, a: int, k: int)
    requires a >= 1 && k >= 1 && a * k >= 1
    ensures Floored(a * k, Floored(a, ts)) == Floored(a * k, ts)
  {
    var mins := (ts % DAY) / 60;
    var start := mins - mins % a;
    MultipleFloor(mins, a, 0);
    FloorWithin(mins, a);
    assert 0 <= start <= mins < DAY_MIN;
    StartOf(DateOf(ts), start);
    FloorOfFloor(mins, a, k);
  }

  lemma StartOf(date: int, start: int)
    requires 0 <= start < DAY_MIN
    ensures var ts := date * DAY + start * 60; DateOf(ts) == date && (ts % DAY) / 60 == start
  {
  }

  lemma AddOpened(minutes: int, bs: seq<Candle>, c: Candle, ts: int)
    requires minutes >= 1 && Floored(minutes, ts) == Floored(minutes, c.ts)
    ensures Add(minutes, bs, c.(ts := ts)) == Add(minutes, bs, c)
  {
  }

  /** Adding two bars of one bucket is adding their merger. */
  lemma AddMerged(minutes: int, bs: seq<Candle>, x: Candle, c: Candle)
    requires minutes >= 1 && Floored(minutes, x.ts) == Floored(minutes, c.ts)
    ensures Add(minutes, Add(minutes, bs, x), c) == Add(minutes, bs, Merge(x, c))
  {
    if bs == [] || Floored(minutes, x.ts) > bs[|bs| - 1].ts {
      var b := Opening(minutes, x);
      assert Add(minutes, bs, x) == bs + [b];
      assert (bs + [b])[..|bs|] == bs;
      assert Merge(b, c) == Opening(minutes, Merge(x, c));
    } else if Floored(minutes, x.ts) == bs[|bs| - 1].ts {
      var most, b := bs[..|bs| - 1], bs[|bs| - 1];
      assert Merge(Merge(b, x), c) == Merge(b, Merge(x, c));
      assert (most + [Merge(b, x)])[..|most|] == most;
    }
  }

  lemma {:induction false} BucketsSnoc(minutes: int, bs: seq<Candle>, b: Candle)
    requires minutes >= 1
    ensures Buckets(minutes, bs + [b]) == Add(minutes, Buckets(minutes, bs), b)
  {
    assert (bs + [b])[..|bs|] == bs;
  }

  /** Flooring to `a` minutes first does not move a bar to another bucket of `b` minutes. */
  ghost predicate Nests(a: int, b: int)
    requires a >= 1 && b >= 1
  {
    forall ts :: Floored(b, Floored(a, ts)) == Floored(b, ts)
  }

  /** A bucket of a day or more is the day. */
  lemma DayNests(a: int, b: int)
    requires a >= 1 && b >= DAY_MIN
    ensures Nests(a, b)
  {
    forall ts ensures Floored(b, Floored(a, ts)) == Floored(b, ts) {
      var mins := (ts % DAY) / 60;
      var start := mins - mins % a;
      MultipleFloor(mins, a, 0);
      FloorWithin(mins, a);
      StartOf(DateOf(ts), start);
      FloorIs(mins, b, 0);
      FloorIs(start, b, 0);
    }
  }

  lemma MultipleNests(a: int, b: int)
    requires a >= 1 && b >= 1 && b % a == 0
    ensures Nests(a, b)
  {
    var k := b / a;
    assert b == a * k;
    forall ts ensures Floored(b, Floored(a, ts)) == Floored(b, ts) {
      FloorTwice(ts, a, k);
    }
  }

  lemma {:induction false} ComposeJoin(bs: seq<Candle>, c: Candle, a: int, b: int)
    requires a >= 1 && b >= 1 && Nests(a, b)
    requires bs != [] && bs[|bs| - 1].ts == Floored(a, c.ts)
    ensures Buckets(b, Add(a, bs, c)) == Add(b, Buckets(b, bs), c)
  {
    var older, x := bs[..|bs| - 1], bs[|bs| - 1];
    assert older + [x] == bs;
    assert Floored(b, Floored(a, c.ts)) == Floored(b, c.ts);
    BucketsSnoc(b, older, x);
    BucketsSnoc(b, older, Merge(x, c));
    AddMerged(b, Buckets(b, older), x, c);
  }

  lemma {:induction false} ComposeOpen(bs: seq<Candle>, c: Candle, a: int, b: int)
    requires a >= 1 && b >= 1 && Nests(a, b)
    requires bs == [] || bs[|bs| - 1].ts < Floored(a, c.ts)
    ensures Buckets(b, Add(a, bs, c)) == Add(b, Buckets(b, bs), c)
  {
    assert Add(a, bs, c) == bs + [Opening(a, c)];
    assert Floored(b, Floored(a, c.ts)) == Floored(b, c.ts);
    BucketsSnoc(b, bs, Opening(a, c));
    AddOpened(b, Buckets(b, bs), c, Floored(a, c.ts));
  }

  lemma {:induction false} BucketsCompose(cs: seq<Candle>, a: int, b: int)
    requires a >= 1 && b >= 1 && Nests(a, b) && InOrder(a, cs)
    ensures Buckets(b, Buckets(a, cs)) == Buckets(b, cs)
    decreases |cs|
  {
    if cs != [] {
      var most, c := cs[..|cs| - 1], cs[|cs| - 1];
      assert most + [c] == cs;
      InOrderPrefix(a, most, c);
      BucketsCompose(most, a, b);
      var bs := Buckets(a, most);
      if most != [] {
        LastBucket(a, most);
      }
      if bs != [] && bs[|bs| - 1].ts == Floored(a, c.ts) {
        ComposeJoin(bs, c, a, b);
      } else {
        ComposeOpen(bs, c, a, b);
      }
    }
  }

  /** Going by way of `a` minutes is harmless: it changes nothing, the target is a day or more, or `a`
      divides the target. */
  predicate Harmless(a: int, b: int) {
    a <= 1 || b >= DAY_MIN || (b >= 2 && b % a == 0)
  }

  /** Aggregating by `a` and then by `b` is then aggregating by `b`. */
  lemma Composes(cs: seq<Candle>, a: int, b: int)
    requires Harmless(a, b) && (a >= 2 ==> InOrder(a, cs))
    ensures Aggregate(Aggregate(cs, a), b) == Aggregate(cs, b)
  {
    if a >= 2 {
      if b >= DAY_MIN {
        DayNests(a, b);
      } else {
        MultipleNests(a, b);
      }
      BucketsCompose(cs, a, b);
    }
  }

  function BarAt(minute: int): Candle {
    Candle(minute * 60, 1.0, 1.0, 1.0, 1.0, 1.0)
  }

  lemma FirstDay(minutes: int, m: int)
    requires minutes >= 1 && 0 <= m < DAY_MIN
    ensures Floored(minutes, m * 60) == (m - m % minutes) * 60
  {
    StartOf(0, m);
  }

  lemma {:induction false} TwoBuckets(minutes: int, x: Candle, y: Candle)
    requires minutes >= 1
    ensures Buckets(minutes, [x]) == [Opening(minutes, x)]
    ensures Buckets(minutes, [x, y]) == Add(minutes, [Opening(minutes, x)], y)
  {
    assert [x, y][..1] == [x] && [x][..0] == [];
  }

  /** Two bars that show the divisor is needed: the shorter timeframe puts them together, the longer
      one keeps them apart. */
  lemma {:induction false} WithoutDivisor(a: int, b: int)
    requires !Harmless(a, b)
    ensures var cs := if b >= 2 then [BarAt(b - b % a), BarAt(b)] else [BarAt(0), BarAt(1)];
            Ascending(cs) && Aggregate(Aggregate(cs, a), b) != Aggregate(cs, b)
  {
    if b >= 2 {
      TwoApart(a, b);
    } else {
      TwoMinutes(a);
    }
  }

  lemma {:induction false} TwoMinutes(a: int)
    requires a >= 2
    ensures |Buckets(a, [BarAt(0), BarAt(1)])| == 1
  {
    FloorIs(0, a, 0);
    FloorIs(1, a, 0);
    FirstDay(a, 0);
    FirstDay(a, 1);
    TwoBuckets(a, BarAt(0), BarAt(1));
  }

  lemma {:induction false} TwoApart(a: int, b: int)
    requires a >= 2 && 2 <= b < DAY_MIN && b % a != 0
    ensures var cs := [BarAt(b - b % a), BarAt(b)];
            Ascending(cs) && Aggregate(Aggregate(cs, a), b) != Aggregate(cs, b)
  {
    var m := b - b % a;
    FloorWithin(b, a);
    MultipleFloor(b, a, 0);
    FloorIs(m, a, b / a) by {
      assert (b / a + 1) * a == (b / a) * a + a;
    }
    FloorIs(b, b, 1);
    FloorIs(m, b, 0);
    FirstDay(a, m);
    FirstDay(a, b);
    FirstDay(b, m);
    FirstDay(b, b);
    TwoBuckets(a, BarAt(m), BarAt(b));
    TwoBuckets(b, BarAt(m), BarAt(b));
    var one := Merge(Opening(a, BarAt(m)), BarAt(b));
    assert Buckets(a, [BarAt(m), BarAt(b)]) == [one];
    TwoBuckets(b, one, one);
  }

  ghost predicate Stages(a: int, b: int) {
    forall cs :: Ascending(cs) ==> Aggregate(Aggregate(cs, a), b) == Aggregate(cs, b)
  }

  /** For all timeframes: going by way of `a` minutes gives the `b`-minute bars of every ascending list
      exactly when `a` is at most a minute, `b` at least a day, or `a` divides `b`. */
  lemma StagesExact(a: int, b: int)
    ensures Stages(a, b) <==> a <= 1 || b >= DAY_MIN || (b >= 2 && b % a == 0)
  {
    if Harmless(a, b) {
      forall cs | Ascending(cs) ensures Aggregate(Aggregate(cs, a), b) == Aggregate(cs, b) {
        if a >= 2 {
          AscendingIsInOrder(a, cs);
        }
        Composes(cs, a, b);
      }
    } else {
      WithoutDivisor(a, b);
    }
  }

  // ------------------------------------------------------------------ the code itself

  /** What tells two buckets apart: the date and the start minute. */
  datatype Key = Key(date: int, start: int)

  function KeyOf(minutes: int, ts: int): Key
    requires minutes >= 1
  {
    var mins := (ts % DAY) / 60;
    Key(DateOf(ts), if minutes == DAY_MIN then 0 else mins - mins % minutes)
  }

  function OpenTs(key: Key): int {
    key.date * DAY + key.start * 60
  }

  predicate ValidMinutes(minutes: int) {
    1 <= minutes <= DAY_MIN && DAY_MIN % minutes == 0
  }

  predicate ValidKey(key: Key) {
    0 <= key.start < DAY_MIN
  }

  lemma KeyIsOpenTs(minutes: int, ts: int)
    requires ValidMinutes(minutes)
    ensures ValidKey(KeyOf(minutes, ts)) && OpenTs(KeyOf(minutes, ts)) == Floored(minutes, ts)
  {
    var mins := (ts % DAY) / 60;
    FloorWithin(mins, minutes);
    MultipleFloor(mins, minutes, 0);
  }

  lemma OpenTsTellsApart(j: Key, k: Key)
    requires ValidKey(j) && ValidKey(k)
    ensures j == k <==> OpenTs(j) == OpenTs(k)
  {
    StartOf(j.date, j.start);
    StartOf(k.date, k.start);
  }

  class TimeframeAggregator {
    const minutes: int
    var key: Option<Key>
    var openTs: int
    var o: real
    var h: real
    var l: real
    var c: real
    var v: real

    predicate Valid()
      reads this
    {
      ValidMinutes(minutes) && (key.Some? ==> ValidKey(key.value) && openTs == OpenTs(key.value))
    }

    /** The bucket in progress (`developing`). */
    function Developing(): Option<Candle>
      reads this
    {
      if key.None? then None else Some(Candle(openTs, o, h, l, c, v))
    }

    constructor (minutes: int)
      requires ValidMinutes(minutes)
      ensures Valid() && this.minutes == minutes && Developing() == None
    {
      this.minutes := minutes;
      key, openTs := None, 0;
      o, h, l, c, v := 0.0, 0.0, 0.0, 0.0, 0.0;
    }

    method Begin(k: Key, bar: Candle)
      requires ValidMinutes(minutes) && k == KeyOf(minutes, bar.ts)
      modifies this
      ensures Valid() && Developing() == Some(Opening(minutes, bar))
    {
      KeyIsOpenTs(minutes, bar.ts);
      key, openTs := Some(k), OpenTs(k);
      o, h, l, c := bar.open, bar.high, bar.low, bar.close;
      v := bar.volume;
    }

    /** `update`. */
    method Feed(bar: Candle) returns (done: Option<Candle>)
      requires Valid()
      modifies this
      ensures Valid() && (Developing(), done) == Fold(minutes, old(Developing()), bar)
    {
      var k := KeyOf(minutes, bar.ts);
      KeyIsOpenTs(minutes, bar.ts);
      if key.None? {
        Begin(k, bar);
        return None;
      }
      OpenTsTellsApart(k, key.value);
      if k == key.value {
        h := Max(h, bar.high);
        l := Min(l, bar.low);
        c := bar.close;
        v := v + bar.volume;
        return None;
      }
      done := Developing();
      Begin(k, bar);
    }

    method Reset()
      requires Valid()
      modifies this
      ensures Valid() && Developing() == None
    {
      key, openTs := None, 0;
      o, h, l, c, v := 0.0, 0.0, 0.0, 0.0, 0.0;
    }
  }

  /** `aggregate_candles`. */
  method AggregateCandles(cs: seq<Candle>, minutes: int) returns (r: seq<Candle>)
    ensures r == Aggregate(cs, minutes)
  {
    if minutes <= 1 {
      return cs;
    }
    var out: seq<Candle>, cur: Option<Candle>, i := [], None, 0;
    while i < |cs|
      invariant 0 <= i <= |cs|
      invariant out + (if cur.Some? then [cur.value] else []) == Buckets(minutes, cs[..i])
      invariant cur.None? ==> i == 0
    {
      assert cs[..i + 1][..i] == cs[..i];
      var c, at := cs[i], Floored(minutes, cs[i].ts);
      ghost var bs := Buckets(minutes, cs[..i]);
      if cur.None? {
        cur := Some(c.(ts := at));
      } else if at == cur.value.ts {
        assert bs[..|bs| - 1] == out;
        cur := Some(Merge(cur.value, c));
      } else if at > cur.value.ts {
        out := out + [cur.value];
        cur := Some(c.(ts := at));
      }
      i := i + 1;
    }
    assert cs[..|cs|] == cs;
    if cur.Some? {
      out := out + [cur.value];
    }
    return out;
  }
}