/** Trade statistics: the drawdown of the equity curve and the tables that split trades by day, hour
    and duration. */
module Analytics {
  import opened Prelude
  import opened Models

  datatype Trade = Trade(openTs: int, closeTs: int, pnl: real)

  // ------------------------------------------------------------------ equity and drawdown

  /** Trades by closing time; of two that close together the earlier in the list comes first. */
  function ByClose(trades: seq<Trade>): seq<Trade>
    decreases |trades|
  {
    if trades == [] then [] else Insert(ByClose(trades[..|trades| - 1]), trades[|trades| - 1])
  }

  function Insert(sorted: seq<Trade>, t: Trade): seq<Trade>
    decreases |sorted|
  {
    if sorted == [] || sorted[|sorted| - 1].closeTs <= t.closeTs then sorted + [t]
    else Insert(sorted[..|sorted| - 1], t) + [sorted[|sorted| - 1]]
  }

  /** Equity after each trade, the starting balance first. */
  function Curve(start: real, trades: seq<Trade>): (r: seq<real>)
    ensures |r| == |trades| + 1
    decreases |trades|
  {
    if trades == [] then [start]
    else
      var most := Curve(start, trades[..|trades| - 1]);
      most + [most[|most| - 1] + trades[|trades| - 1].pnl]
  }

  /** Running values of the loop: equity, its peak, the deepest drawdown and that in percent. */
  datatype Run = Run(eq: real, peak: real, dd: real, pct: real)

  function Percent(dd: real, peak: real): real {
    if peak > 0.0 then dd / peak * 100.0 else 0.0
  }

  function Step(r: Run, t: Trade): Run {
    var eq := r.eq + t.pnl;
    var peak := Max(r.peak, eq);
    if peak - eq > r.dd then Run(eq, peak, peak - eq, Percent(peak - eq, peak)) else Run(eq, peak, r.dd, r.pct)
  }

  function Drawdown(start: real, trades: seq<Trade>): Run
    decreases |trades|
  {
    if trades == [] then Run(start, start, 0.0, 0.0)
    else Step(Drawdown(start, trades[..|trades| - 1]), trades[|trades| - 1])
  }

  predicate IsMax(curve: seq<real>, n: nat, x: real)
    requires n < |curve|
  {
    (forall i :: 0 <= i <= n ==> curve[i] <= x) && (exists i :: 0 <= i <= n && curve[i] == x)
  }

  /** No fall from one point of the curve to a later one is deeper than `dd`. */
  predicate Bounds(curve: seq<real>, dd: real) {
    forall i, j :: 0 <= i <= j < |curve| ==> curve[i] - curve[j] <= dd
  }

  /** Point `j` is the first to lie `dd` below an earlier peak; `pct` is that in percent of the peak. */
  ghost predicate Trough(curve: seq<real>, j: nat, dd: real, pct: real) {
    && j < |curve|
    && (forall m, n :: 0 <= m <= n < j ==> curve[m] - curve[n] < dd)
    && IsMax(curve, j, curve[j] + dd) && pct == Percent(dd, curve[j] + dd)
  }

  ghost predicate Exact(curve: seq<real>, r: Run) {
    && curve != []
    && r.eq == curve[|curve| - 1]
    && IsMax(curve, |curve| - 1, r.peak)
    && r.dd >= 0.0 && Bounds(curve, r.dd)
    && (r.dd == 0.0 ==> r.pct == 0.0)
    && (r.dd > 0.0 ==> HasTrough(curve, r.dd, r.pct))
  }

  ghost predicate HasTrough(curve: seq<real>, dd: real, pct: real) {
    exists j: nat :: Trough(curve, j, dd, pct)
  }

  lemma {:induction false} MaxGrows(curve: seq<real>, x: real, peak: real)
    requires curve != [] && IsMax(curve, |curve| - 1, peak)
    ensures IsMax(curve + [x], |curve|, Max(peak, x))
  {
    var more := curve + [x];
    var i :| 0 <= i <= |curve| - 1 && curve[i] == peak;
    assert more[i] == peak && more[|curve|] == x;
  }

  lemma {:induction false} BoundsGrow(curve: seq<real>, x: real, peak: real, dd: real)
    requires curve != [] && Bounds(curve, dd) && IsMax(curve, |curve| - 1, peak)
    requires dd >= 0.0
    ensures Bounds(curve + [x], Max(dd, Max(peak, x) - x))
  {
    var more := curve + [x];
    forall i, j | 0 <= i <= j < |more| ensures more[i] - more[j] <= Max(dd, Max(peak, x) - x) {
      if j < |curve| {
        assert more[i] == curve[i] && more[j] == curve[j];
      } else {
        assert i < |curve| ==> more[i] == curve[i];
      }
    }
  }

  lemma {:induction false} TroughStays(curve: seq<real>, x: real, dd: real, pct: real)
    requires HasTrough(curve, dd, pct)
    ensures HasTrough(curve + [x], dd, pct)
  {
    var more := curve + [x];
    var j: nat :| Trough(curve, j, dd, pct);
    assert forall i :: 0 <= i <= j ==> more[i] == curve[i];
    var top := curve[j] + dd;
    assert IsMax(curve, j, top);
    var i :| 0 <= i <= j && curve[i] == top;
    assert more[i] == top && more[j] + dd == top;
    assert Trough(more, j, dd, pct);
  }

  lemma {:induction false} NewTrough(curve: seq<real>, x: real, peak: real, dd: real)
    requires curve != [] && Bounds(curve, dd) && IsMax(curve, |curve| - 1, peak)
    requires Max(peak, x) - x > dd >= 0.0
    ensures HasTrough(curve + [x], Max(peak, x) - x, Percent(Max(peak, x) - x, Max(peak, x)))
  {
    var more := curve + [x];
    MaxGrows(curve, x, peak);
    forall m, n | 0 <= m <= n < |curve| ensures more[m] - more[n] < Max(peak, x) - x {
      assert curve[m] - curve[n] <= dd;
    }
    assert Trough(more, |curve|, Max(peak, x) - x, Percent(Max(peak, x) - x, Max(peak, x)));
  }

  lemma {:induction false} StepTrough(curve: seq<real>, r: Run, t: Trade)
    requires Exact(curve, r)
    ensures var r' := Step(r, t);
            && (r'.dd == 0.0 ==> r'.pct == 0.0)
            && (r'.dd > 0.0 ==> HasTrough(curve + [r.eq + t.pnl], r'.dd, r'.pct))
  {
    var x := r.eq + t.pnl;
    if Max(r.peak, x) - x > r.dd {
      NewTrough(curve, x, r.peak, r.dd);
    } else if r.dd > 0.0 {
      TroughStays(curve, x, r.dd, r.pct);
    }
  }

  lemma {:induction false} StepBounds(curve: seq<real>, r: Run, t: Trade)
    requires Exact(curve, r)
    ensures var more, r' := curve + [r.eq + t.pnl], Step(r, t);
            && r'.eq == more[|curve|] && IsMax(more, |curve|, r'.peak)
            && r'.dd >= 0.0 && Bounds(more, r'.dd)
  {
    var x := r.eq + t.pnl;
    MaxGrows(curve, x, r.peak);
    BoundsGrow(curve, x, r.peak, r.dd);
  }

  lemma {:induction false} StepExact(curve: seq<real>, r: Run, t: Trade)
    requires Exact(curve, r)
    ensures Exact(curve + [r.eq + t.pnl], Step(r, t))
  {
    StepBounds(curve, r, t);
    StepTrough(curve, r, t);
  }

  /** The running peak finds the deepest fall of the whole curve: no fall from a point to a later one
      is deeper, and, if there is any, the percentage is that of the first point that reaches it,
      relative to the peak before it. */
  lemma {:induction false} DrawdownExact(start: real, trades: seq<Trade>)
    ensures Exact(Curve(start, trades), Drawdown(start, trades))
    decreases |trades|
  {
    if trades == [] {
      assert Curve(start, trades) == [start] && IsMax([start], 0, start) by {
        assert [start][0] == start;
      }
    } else {
      var most := trades[..|trades| - 1];
      DrawdownExact(start, most);
      StepExact(Curve(start, most), Drawdown(start, most), trades[|trades| - 1]);
    }
  }

  predicate Sorted(trades: seq<Trade>) {
    forall i, j :: 0 <= i < j < |trades| ==> trades[i].closeTs <= trades[j].closeTs
  }

  lemma {:induction false} InsertKeepsAll(sorted: seq<Trade>, t: Trade)
    ensures multiset(Insert(sorted, t)) == multiset(sorted) + multiset{t}
    decreases |sorted|
  {
    if !(sorted == [] || sorted[|sorted| - 1].closeTs <= t.closeTs) {
      InsertKeepsAll(sorted[..|sorted| - 1], t);
      assert sorted == sorted[..|sorted| - 1] + [sorted[|sorted| - 1]];
    }
  }

  lemma {:induction false} InsertSorts(sorted: seq<Trade>, t: Trade)
    requires Sorted(sorted)
    ensures var r := Insert(sorted, t);
            && Sorted(r) && r != []
            && (r[|r| - 1].closeTs <= t.closeTs || (sorted != [] && r[|r| - 1].closeTs <= sorted[|sorted| - 1].closeTs))
    decreases |sorted|
  {
    if !(sorted == [] || sorted[|sorted| - 1].closeTs <= t.closeTs) {
      InsertSorts(sorted[..|sorted| - 1], t);
    }
  }

  lemma {:induction false} InsertCloses(trades: seq<Trade>, most: seq<Trade>, last: Trade)
    requires trades == most + [last] && Sorted(ByClose(most)) && multiset(ByClose(most)) == multiset(most)
    ensures ByClose(trades) == Insert(ByClose(most), last)
    ensures Sorted(ByClose(trades)) && multiset(ByClose(trades)) == multiset(trades)
  {
    assert trades[..|most|] == most;
    InsertSorts(ByClose(most), last);
    InsertKeepsAll(ByClose(most), last);
  }

  lemma {:induction false} ByCloseSorts(trades: seq<Trade>)
    ensures Sorted(ByClose(trades)) && multiset(ByClose(trades)) == multiset(trades)
    decreases |trades|
  {
    if trades != [] {
      var most, last := trades[..|trades| - 1], trades[|trades| - 1];
      ByCloseSorts(most);
      InsertCloses(trades, most, last);
    }
  }

  // ------------------------------------------------------------------ tables

  /** Net of a list of trades. */
  function Net(trades: seq<Trade>): real
    decreases |trades|
  {
    if trades == [] then 0.0 else Net(trades[..|trades| - 1]) + trades[|trades| - 1].pnl
  }

  /** The trades with a given key. */
  function Bucket(trades: seq<Trade>, key: Trade -> int, k: int): seq<Trade>
    decreases |trades|
  {
    if trades == [] then []
    else
      var t := trades[|trades| - 1];
      Bucket(trades[..|trades| - 1], key, k) + if key(t) == k then [t] else []
  }

  datatype Row = Row(key: int, n: nat, net: real, cum: real)

  predicate Rising(keys: seq<int>) {
    forall i, j :: 0 <= i < j < |keys| ==> keys[i] < keys[j]
  }

  function InsertKey(keys: seq<int>, k: int): seq<int>
    decreases |keys|
  {
    if keys == [] || keys[|keys| - 1] < k then keys + [k]
    else if keys[|keys| - 1] == k then keys
    else InsertKey(keys[..|keys| - 1], k) + [keys[|keys| - 1]]
  }

  /** The keys that occur, in increasing order. */
  function Keys(trades: seq<Trade>, key: Trade -> int): seq<int>
    decreases |trades|
  {
    if trades == [] then [] else InsertKey(Keys(trades[..|trades| - 1], key), key(trades[|trades| - 1]))
  }

  /** One row a key, with the running total of the nets. */
  function Rows(trades: seq<Trade>, key: Trade -> int, keys: seq<int>): (r: seq<Row>)
    ensures |r| == |keys|
    decreases |keys|
  {
    if keys == [] then []
    else
      var most, k := Rows(trades, key, keys[..|keys| - 1]), keys[|keys| - 1];
      var group := Bucket(trades, key, k);
      most + [Row(k, |group|, Net(group), (if most == [] then 0.0 else most[|most| - 1].cum) + Net(group))]
  }

  function Table(trades: seq<Trade>, key: Trade -> int): seq<Row> {
    Rows(trades, key, Keys(trades, key))
  }

  function CountSum(rows: seq<Row>): nat
    decreases |rows|
  {
    if rows == [] then 0 else CountSum(rows[..|rows| - 1]) + rows[|rows| - 1].n
  }

  function NetSum(rows: seq<Row>): real
    decreases |rows|
  {
    if rows == [] then 0.0 else NetSum(rows[..|rows| - 1]) + rows[|rows| - 1].net
  }

  lemma {:induction false} InsertKeyExact(keys: seq<int>, k: int)
    requires Rising(keys)
    ensures var r := InsertKey(keys, k);
            Rising(r) && forall x :: x in r <==> x in keys || x == k
    decreases |keys|
  {
    if keys != [] && keys[|keys| - 1] > k {
      var most, last := keys[..|keys| - 1], keys[|keys| - 1];
      InsertKeyExact(most, k);
      assert keys == most + [last];
      var r := InsertKey(most, k);
      forall i | 0 <= i < |r| ensures r[i] < last {
        assert r[i] in r;
      }
    }
  }

  lemma {:induction false} KeysExact(trades: seq<Trade>, key: Trade -> int)
    ensures Rising(Keys(trades, key))
    ensures AllKeyed(trades, key, Keys(trades, key))
    decreases |trades|
  {
    if trades != [] {
      var n := |trades| - 1;
      var older, keys := Keys(trades[..n], key), Keys(trades, key);
      KeysExact(trades[..n], key);
      InsertKeyExact(older, key(trades[n]));
      forall i | 0 <= i < |trades| ensures key(trades[i]) in keys {
        assert i < n ==> trades[..n][i] == trades[i] && key(trades[..n][i]) in older;
      }
    }
  }

  lemma {:induction false} NetSnoc(trades: seq<Trade>, t: Trade)
    ensures Net(trades + [t]) == Net(trades) + t.pnl
  {
    assert (trades + [t])[..|trades|] == trades;
  }

  lemma {:induction false} NothingSums(key: Trade -> int, keys: seq<int>)
    ensures CountSum(Rows([], key, keys)) == 0 && NetSum(Rows([], key, keys)) == 0.0
    decreases |keys|
  {
    if keys != [] {
      NothingSums(key, keys[..|keys| - 1]);
      RowsSnoc([], key, keys);
    }
  }

  lemma {:induction false} RowsSnoc(trades: seq<Trade>, key: Trade -> int, keys: seq<int>)
    requires keys != []
    ensures var rows, most := Rows(trades, key, keys), Rows(trades, key, keys[..|keys| - 1]);
            var group := Bucket(trades, key, keys[|keys| - 1]);
            && CountSum(rows) == CountSum(most) + |group| && NetSum(rows) == NetSum(most) + Net(group)
            && rows[|rows| - 1].cum == (if most == [] then 0.0 else most[|most| - 1].cum) + Net(group)
  {
    var rows := Rows(trades, key, keys);
    assert rows[..|rows| - 1] == Rows(trades, key, keys[..|keys| - 1]);
  }

  /** One more trade counts in the row of its key and no other. */
  lemma {:induction false} OneMoreTrade(trades: seq<Trade>, t: Trade, key: Trade -> int, keys: seq<int>)
    requires Rising(keys)
    ensures var before, after := Rows(trades, key, keys), Rows(trades + [t], key, keys);
            var here := key(t) in keys;
            && CountSum(after) == CountSum(before) + (if here then 1 else 0)
            && NetSum(after) == NetSum(before) + (if here then t.pnl else 0.0)
    decreases |keys|
  {
    if keys != [] {
      var most, k := keys[..|keys| - 1], keys[|keys| - 1];
      OneMoreTrade(trades, t, key, most);
      RowsSnoc(trades, key, keys);
      RowsSnoc(trades + [t], key, keys);
      CellGrows(trades, t, key, k);
      assert key(t) in keys <==> key(t) in most || key(t) == k;
    }
  }

  predicate AllKeyed(trades: seq<Trade>, key: Trade -> int, keys: seq<int>) {
    forall i :: 0 <= i < |trades| ==> key(trades[i]) in keys
  }

  lemma {:induction false} KeyedPrefix(trades: seq<Trade>, key: Trade -> int, keys: seq<int>)
    requires trades != [] && AllKeyed(trades, key, keys)
    ensures AllKeyed(trades[..|trades| - 1], key, keys) && key(trades[|trades| - 1]) in keys
  {
    assert forall i :: 0 <= i < |trades| - 1 ==> trades[..|trades| - 1][i] == trades[i];
  }

  predicate Cover(rows: seq<Row>, trades: seq<Trade>) {
    CountSum(rows) == |trades| && NetSum(rows) == Net(trades)
  }

  lemma {:induction false} CoverMore(trades: seq<Trade>, most: seq<Trade>, t: Trade, key: Trade -> int, keys: seq<int>)
    requires Rising(keys) && key(t) in keys && trades == most + [t]
    requires Cover(Rows(most, key, keys), most)
    ensures Cover(Rows(trades, key, keys), trades)
  {
    OneMoreTrade(most, t, key, keys);
    NetSnoc(most, t);
  }

  lemma {:induction false} RowsCover(trades: seq<Trade>, key: Trade -> int, keys: seq<int>)
    requires Rising(keys) && AllKeyed(trades, key, keys)
    ensures Cover(Rows(trades, key, keys), trades)
    decreases |trades|
  {
    if trades == [] {
      NothingSums(key, keys);
    } else {
      var most, t := trades[..|trades| - 1], trades[|trades| - 1];
      KeyedPrefix(trades, key, keys);
      RowsCover(most, key, keys);
      CoverMore(trades, most, t, key, keys);
    }
  }

  lemma {:induction false} CumIsNet(trades: seq<Trade>, key: Trade -> int, keys: seq<int>)
    requires keys != []
    ensures var rows := Rows(trades, key, keys); rows[|rows| - 1].cum == NetSum(rows)
    decreases |keys|
  {
    var rows, most := Rows(trades, key, keys), Rows(trades, key, keys[..|keys| - 1]);
    RowsSnoc(trades, key, keys);
    if most == [] {
      assert NetSum(most) == 0.0;
    } else {
      CumIsNet(trades, key, keys[..|keys| - 1]);
    }
  }

  /** Whatever the key, the table splits the trades: rows in increasing order of key, counts that sum
      to the number of trades, nets that sum to the net, which the last running total equals. */
  lemma {:induction false} TablePartitions(trades: seq<Trade>, key: Trade -> int)
    ensures var rows := Table(trades, key);
            && Rising(Keys(trades, key))
            && CountSum(rows) == |trades| && NetSum(rows) == Net(trades)
            && (rows == [] <==> trades == [])
            && (rows != [] ==> rows[|rows| - 1].cum == Net(trades))
  {
    KeysExact(trades, key);
    RowsCover(trades, key, Keys(trades, key));
    if Keys(trades, key) != [] {
      CumIsNet(trades, key, Keys(trades, key));
    }
    if trades != [] {
      assert key(trades[0]) in Keys(trades, key);
    }
  }

  // ------------------------------------------------------------------ the three keys

  function CloseDate(t: Trade): int {
    DateOf(t.closeTs)
  }

  function OpenHour(t: Trade): int {
    (t.openTs % DAY) / 3600
  }

  /** Upper ends of the duration buckets in seconds; the last bucket has none. */
  const Durations := [900, 3600, 14400, 86400]

  /** The first bucket the duration fits in; a negative one fits in the first. */
  function BucketFrom(secs: int, i: nat): (r: int)
    requires i <= |Durations|
    ensures i <= r <= |Durations|
    ensures r < |Durations| ==> secs < Durations[r]
    ensures forall j :: i <= j < r ==> secs >= Durations[j]
    decreases |Durations| - i
  {
    if i == |Durations| || secs < Durations[i] then i else BucketFrom(secs, i + 1)
  }

  function DurationBucket(t: Trade): int {
    BucketFrom(t.closeTs - t.openTs, 0)
  }

  // ------------------------------------------------------------------ the code itself

  /** The drawdown loop of `compute_stats`. */
  method MaxDrawdown(start: real, trades: seq<Trade>) returns (maxDd: real, maxPct: real)
    ensures var r := Drawdown(start, ByClose(trades)); maxDd == r.dd && maxPct == r.pct
  {
    var ordered, i := ByClose(trades), 0;
    var eq, peak := start, start;
    maxDd, maxPct := 0.0, 0.0;
    while i < |ordered|
      invariant 0 <= i <= |ordered|
      invariant Run(eq, peak, maxDd, maxPct) == Drawdown(start, ordered[..i])
    {
      assert ordered[..i + 1][..i] == ordered[..i];
      eq := eq + ordered[i].pnl;
      peak := Max(peak, eq);
      var dd := peak - eq;
      if dd > maxDd {
        maxDd := dd;
        maxPct := if peak > 0.0 then dd / peak * 100.0 else 0.0;
      }
      i := i + 1;
    }
    assert ordered[..|ordered|] == ordered;
  }

  lemma {:induction false} BucketSnoc(trades: seq<Trade>, t: Trade, key: Trade -> int, k: int)
    ensures Bucket(trades + [t], key, k) == Bucket(trades, key, k) + if key(t) == k then [t] else []
  {
    assert (trades + [t])[..|trades|] == trades;
  }

  datatype Cell = Cell(n: nat, net: real)

  /** Count and net of one key's trades. */
  function CellOf(trades: seq<Trade>, key: Trade -> int, k: int): Cell {
    Cell(|Bucket(trades, key, k)|, Net(Bucket(trades, key, k)))
  }

  ghost predicate AreCells(cells: map<int, Cell>, trades: seq<Trade>, key: Trade -> int) {
    && (forall k :: k in cells <==> Bucket(trades, key, k) != [])
    && (forall k <- cells :: cells[k] == CellOf(trades, key, k))
  }

  lemma {:induction false} CellGrows(trades: seq<Trade>, t: Trade, key: Trade -> int, k: int)
    ensures var c := CellOf(trades, key, k);
            CellOf(trades + [t], key, k) == if key(t) == k then Cell(c.n + 1, c.net + t.pnl) else c
    ensures Bucket(trades + [t], key, k) != [] <==> key(t) == k || Bucket(trades, key, k) != []
  {
    BucketSnoc(trades, t, key, k);
    NetSnoc(Bucket(trades, key, k), t);
    assert Bucket(trades, key, k) + [] == Bucket(trades, key, k);
  }

  function Bumped(cells: map<int, Cell>, k: int, pnl: real): map<int, Cell> {
    var c := if k in cells then cells[k] else Cell(0, 0.0);
    cells[k := Cell(c.n + 1, c.net + pnl)]
  }

  lemma {:induction false} CellsGrow(cells: map<int, Cell>, trades: seq<Trade>, t: Trade, key: Trade -> int)
    requires AreCells(cells, trades, key)
    ensures AreCells(Bumped(cells, key(t), t.pnl), trades + [t], key)
  {
    var k, cells' := key(t), Bumped(cells, key(t), t.pnl);
    assert k !in cells ==> CellOf(trades, key, k) == Cell(0, 0.0);
    forall j
      ensures j in cells' <==> Bucket(trades + [t], key, j) != []
      ensures j in cells' ==> cells'[j] == CellOf(trades + [t], key, j)
    {
      CellGrows(trades, t, key, j);
    }
  }

  /** `_daily_nets`, for any key: count and net of every key that occurs. */
  method Nets(trades: seq<Trade>, key: Trade -> int) returns (cells: map<int, Cell>)
    ensures AreCells(cells, trades, key)
  {
    cells := map[];
    var i := 0;
    while i < |trades|
      invariant 0 <= i <= |trades|
      invariant AreCells(cells, trades[..i], key)
    {
      var t := trades[i];
      assert trades[..i + 1] == trades[..i] + [t];
      CellsGrow(cells, trades[..i], t, key);
      cells := Bumped(cells, key(t), t.pnl);
      i := i + 1;
    }
    assert trades[..|trades|] == trades;
  }

  lemma {:induction false} KeyHasTrades(trades: seq<Trade>, key: Trade -> int, k: int)
    ensures k in Keys(trades, key) <==> Bucket(trades, key, k) != []
    decreases |trades|
  {
    if trades != [] {
      var most := trades[..|trades| - 1];
      KeyHasTrades(most, key, k);
      KeysExact(most, key);
      InsertKeyExact(Keys(most, key), key(trades[|trades| - 1]));
    }
  }

  function LastCum(rows: seq<Row>): real {
    if rows == [] then 0.0 else rows[|rows| - 1].cum
  }

  lemma {:induction false} RowsNext(trades: seq<Trade>, key: Trade -> int, keys: seq<int>, i: nat, c: Cell)
    requires i < |keys| && c == CellOf(trades, key, keys[i])
    ensures var rows := Rows(trades, key, keys[..i]);
            Rows(trades, key, keys[..i + 1]) == rows + [Row(keys[i], c.n, c.net, LastCum(rows) + c.net)]
  {
    assert keys[..i + 1][..i] == keys[..i];
  }

  /** Every key has its cell. */
  ghost predicate Filled(cells: map<int, Cell>, trades: seq<Trade>, key: Trade -> int, keys: seq<int>) {
    forall i :: 0 <= i < |keys| ==> keys[i] in cells && cells[keys[i]] == CellOf(trades, key, keys[i])
  }

  lemma {:induction false} CellsFill(cells: map<int, Cell>, trades: seq<Trade>, key: Trade -> int)
    requires AreCells(cells, trades, key)
    ensures Filled(cells, trades, key, Keys(trades, key))
  {
    var keys := Keys(trades, key);
    forall i | 0 <= i < |keys| ensures keys[i] in cells && cells[keys[i]] == CellOf(trades, key, keys[i]) {
      KeyHasTrades(trades, key, keys[i]);
    }
  }

  /** The loop of `daily_table` over the sorted days. */
  method RunningTable(cells: map<int, Cell>, keys: seq<int>, ghost trades: seq<Trade>,
                      ghost key: Trade -> int)
    returns (rows: seq<Row>)
    requires Filled(cells, trades, key, keys)
    ensures rows == Rows(trades, key, keys)
  {
    var cum, i := 0.0, 0;
    rows := [];
    while i < |keys|
      invariant 0 <= i <= |keys|
      invariant rows == Rows(trades, key, keys[..i])
      invariant cum == LastCum(rows)
    {
      var k := keys[i];
      assert k in cells && cells[k] == CellOf(trades, key, k);
      var day := cells[k];
      RowsNext(trades, key, keys, i, day);
      cum := cum + day.net;
      rows := rows + [Row(k, day.n, day.net, cum)];
      i := i + 1;
    }
    assert keys[..|keys|] == keys;
  }

  /** `daily_table`. */
  method DailyTable(trades: seq<Trade>) returns (rows: seq<Row>)
    ensures rows == Table(trades, CloseDate)
  {
    var cells := Nets(trades, CloseDate);
    CellsFill(cells, trades, CloseDate);
    rows := RunningTable(cells, Keys(trades, CloseDate), trades, CloseDate);
  }

  // ------------------------------------------------------------------ hours and durations

  /** A row of a table without a running total. */
  datatype Group = Group(key: int, n: nat, net: real)

  function Groups(trades: seq<Trade>, key: Trade -> int, keys: seq<int>): (r: seq<Group>)
    ensures |r| == |keys|
    decreases |keys|
  {
    if keys == [] then []
    else
      var k := keys[|keys| - 1];
      var group := Bucket(trades, key, k);
      Groups(trades, key, keys[..|keys| - 1]) + [Group(k, |group|, Net(group))]
  }

  function HourTable(trades: seq<Trade>): seq<Group> {
    Groups(trades, OpenHour, Keys(trades, OpenHour))
  }

  function DurationTable(trades: seq<Trade>): seq<Group> {
    Groups(trades, DurationBucket, Keys(trades, DurationBucket))
  }

  function GroupCount(rows: seq<Group>): nat
    decreases |rows|
  {
    if rows == [] then 0 else GroupCount(rows[..|rows| - 1]) + rows[|rows| - 1].n
  }

  function GroupNet(rows: seq<Group>): real
    decreases |rows|
  {
    if rows == [] then 0.0 else GroupNet(rows[..|rows| - 1]) + rows[|rows| - 1].net
  }

  lemma {:induction false} GroupsSum(trades: seq<Trade>, key: Trade -> int, keys: seq<int>)
    ensures var rows, groups := Rows(trades, key, keys), Groups(trades, key, keys);
            GroupCount(groups) == CountSum(rows) && GroupNet(groups) == NetSum(rows)
    decreases |keys|
  {
    if keys != [] {
      GroupsSum(trades, key, keys[..|keys| - 1]);
      RowsSnoc(trades, key, keys);
      var groups := Groups(trades, key, keys);
      assert groups[..|groups| - 1] == Groups(trades, key, keys[..|keys| - 1]);
    }
  }

  lemma {:induction false} GroupsAt(trades: seq<Trade>, key: Trade -> int, keys: seq<int>, i: nat)
    requires i < |keys|
    ensures var group := Bucket(trades, key, keys[i]);
            Groups(trades, key, keys)[i] == Group(keys[i], |group|, Net(group))
    decreases |keys|
  {
    if i < |keys| - 1 {
      GroupsAt(trades, key, keys[..|keys| - 1], i);
    }
  }

  lemma {:induction false} BucketMembers(trades: seq<Trade>, key: Trade -> int, k: int, t: Trade)
    ensures t in Bucket(trades, key, k) <==> t in trades && key(t) == k
    decreases |trades|
  {
    if trades != [] {
      BucketMembers(trades[..|trades| - 1], key, k, t);
      assert trades == trades[..|trades| - 1] + [trades[|trades| - 1]];
    }
  }

  lemma HourOfDay(t: Trade)
    ensures 0 <= OpenHour(t) < 24
  {
  }

  /** Rows in increasing order of key, none empty, counts and nets that sum to the totals. */
  ghost predicate Splits(trades: seq<Trade>, rows: seq<Group>) {
    && GroupCount(rows) == |trades| && GroupNet(rows) == Net(trades)
    && (forall i :: 0 <= i < |rows| ==> rows[i].n > 0)
    && (forall i, j :: 0 <= i < j < |rows| ==> rows[i].key < rows[j].key)
  }

  lemma {:induction false} GroupsSplit(trades: seq<Trade>, key: Trade -> int)
    ensures Splits(trades, Groups(trades, key, Keys(trades, key)))
  {
    GroupsSum(trades, key, Keys(trades, key));
    TablePartitions(trades, key);
    GroupsFilled(trades, key);
  }

  /** The hour table splits the trades over the hours of the day in which they opened. */
  lemma {:induction false} HoursSplit(trades: seq<Trade>)
    ensures var rows := HourTable(trades);
            Splits(trades, rows) && forall i :: 0 <= i < |rows| ==> 0 <= rows[i].key < 24
  {
    GroupsSplit(trades, OpenHour);
    var rows := HourTable(trades);
    forall i | 0 <= i < |rows| ensures 0 <= rows[i].key < 24 {
      var t := KeyOwner(trades, OpenHour, i);
      HourOfDay(t);
    }
  }

  /** The duration table splits them over the five durations. */
  lemma {:induction false} DurationsSplit(trades: seq<Trade>)
    ensures var rows := DurationTable(trades);
            Splits(trades, rows) && forall i :: 0 <= i < |rows| ==> 0 <= rows[i].key <= |Durations|
  {
    GroupsSplit(trades, DurationBucket);
    var rows := DurationTable(trades);
    forall i | 0 <= i < |rows| ensures 0 <= rows[i].key <= |Durations| {
      var t := KeyOwner(trades, DurationBucket, i);
    }
  }

  lemma {:induction false} GroupsFilled(trades: seq<Trade>, key: Trade -> int)
    ensures var keys, rows := Keys(trades, key), Groups(trades, key, Keys(trades, key));
            forall i :: 0 <= i < |rows| ==> rows[i].key == keys[i] && rows[i].n > 0
  {
    var keys, rows := Keys(trades, key), Groups(trades, key, Keys(trades, key));
    forall i | 0 <= i < |rows| ensures rows[i].key == keys[i] && rows[i].n > 0 {
      GroupsAt(trades, key, keys, i);
      KeyHasTrades(trades, key, keys[i]);
    }
  }

  /** Some trade has the key of a row. */
  lemma {:induction false} KeyOwner(trades: seq<Trade>, key: Trade -> int, i: nat) returns (t: Trade)
    requires i < |Keys(trades, key)|
    ensures t in trades && key(t) == Keys(trades, key)[i] == Groups(trades, key, Keys(trades, key))[i].key
  {
    var k := Keys(trades, key)[i];
    GroupsAt(trades, key, Keys(trades, key), i);
    KeyHasTrades(trades, key, k);
    t := Bucket(trades, key, k)[0];
    BucketMembers(trades, key, k, t);
  }

  ghost predicate AreBuckets(buckets: map<int, seq<Trade>>, trades: seq<Trade>, key: Trade -> int) {
    forall k ::
      && (k in buckets <==> Bucket(trades, key, k) != [])
      && (k in buckets ==> buckets[k] == Bucket(trades, key, k))
  }

  /** `setdefault(k, []).append(t)`. */
  function Put(buckets: map<int, seq<Trade>>, k: int, t: Trade): map<int, seq<Trade>> {
    buckets[k := (if k in buckets then buckets[k] else []) + [t]]
  }

  lemma {:induction false} BucketsGrow(buckets: map<int, seq<Trade>>, trades: seq<Trade>, i: nat, key: Trade -> int)
    requires i < |trades| && AreBuckets(buckets, trades[..i], key)
    ensures AreBuckets(Put(buckets, key(trades[i]), trades[i]), trades[..i + 1], key)
  {
    assert trades[..i + 1] == trades[..i] + [trades[i]];
    PutGrows(buckets, trades[..i], trades[i], key);
  }

  lemma {:induction false} PutGrows(buckets: map<int, seq<Trade>>, trades: seq<Trade>, t: Trade, key: Trade -> int)
    requires AreBuckets(buckets, trades, key)
    ensures AreBuckets(Put(buckets, key(t), t), trades + [t], key)
  {
    var k := key(t);
    var buckets' := Put(buckets, k, t);
    forall j
      ensures j in buckets' <==> Bucket(trades + [t], key, j) != []
      ensures j in buckets' ==> buckets'[j] == Bucket(trades + [t], key, j)
    {
      BucketSnoc(trades, t, key, j);
      assert Bucket(trades, key, j) + [] == Bucket(trades, key, j);
    }
  }

  /** `sum` over the profits of a list. */
  method SumNet(trades: seq<Trade>) returns (net: real)
    ensures net == Net(trades)
  {
    net := 0.0;
    var i := 0;
    while i < |trades|
      invariant 0 <= i <= |trades| && net == Net(trades[..i])
    {
      assert trades[..i + 1][..i] == trades[..i];
      net := net + trades[i].pnl;
      i := i + 1;
    }
    assert trades[..|trades|] == trades;
  }

  /** One row for each of these keys that occurs, in the order given. */
  method GroupRows(buckets: map<int, seq<Trade>>, keys: seq<int>, ghost trades: seq<Trade>, ghost key: Trade -> int)
    returns (rows: seq<Group>)
    requires AreBuckets(buckets, trades, key)
    ensures rows == Groups(trades, key, Occurring(trades, key, keys))
  {
    rows := [];
    var i := 0;
    while i < |keys|
      invariant 0 <= i <= |keys|
      invariant rows == Groups(trades, key, Occurring(trades, key, keys[..i]))
    {
      var k := keys[i];
      assert keys[..i + 1][..i] == keys[..i];
      ghost var seen := Occurring(trades, key, keys[..i]);
      assert k in buckets <==> Bucket(trades, key, k) != [];
      if k in buckets {
        var net := SumNet(buckets[k]);
        assert (seen + [k])[..|seen|] == seen;
        rows := rows + [Group(k, |buckets[k]|, net)];
      } else {
        assert seen + [] == seen;
      }
      i := i + 1;
    }
    assert keys[..|keys|] == keys;
  }

  function Occurring(trades: seq<Trade>, key: Trade -> int, keys: seq<int>): seq<int>
    decreases |keys|
  {
    if keys == [] then []
    else
      var k := keys[|keys| - 1];
      Occurring(trades, key, keys[..|keys| - 1]) + if Bucket(trades, key, k) != [] then [k] else []
  }

  lemma {:induction false} RisingGrows(keys: seq<int>, k: int)
    requires Rising(keys) && (keys != [] ==> keys[|keys| - 1] < k)
    ensures Rising(keys + [k])
  {
  }

  lemma {:induction false} OccurringRises(trades: seq<Trade>, key: Trade -> int, keys: seq<int>)
    requires Rising(keys)
    ensures var r := Occurring(trades, key, keys);
            Rising(r) && (r != [] ==> keys != [] && r[|r| - 1] <= keys[|keys| - 1])
    decreases |keys|
  {
    if keys != [] {
      var most, k := keys[..|keys| - 1], keys[|keys| - 1];
      OccurringRises(trades, key, most);
      assert most != [] ==> most[|most| - 1] < k;
      OccurringMore(trades, key, keys, most, k);
    }
  }

  lemma {:induction false} OccurringMore(trades: seq<Trade>, key: Trade -> int, keys: seq<int>, most: seq<int>, k: int)
    requires keys == most + [k]
    requires var r := Occurring(trades, key, most); Rising(r) && (r != [] ==> r[|r| - 1] < k)
    ensures var r := Occurring(trades, key, keys); Rising(r) && (r != [] ==> r[|r| - 1] <= k)
  {
    assert keys[..|most|] == most;
    RisingGrows(Occurring(trades, key, most), k);
  }

  lemma {:induction false} OccurringExact(trades: seq<Trade>, key: Trade -> int, keys: seq<int>, k: int)
    ensures k in Occurring(trades, key, keys) <==> k in keys && Bucket(trades, key, k) != []
    decreases |keys|
  {
    if keys != [] {
      var most, last := keys[..|keys| - 1], keys[|keys| - 1];
      OccurringExact(trades, key, most, k);
      assert keys == most + [last];
    }
  }

  lemma {:induction false} RisingUnique(a: seq<int>, b: seq<int>)
    requires Rising(a) && Rising(b) && forall k :: k in a <==> k in b
    ensures a == b
    decreases |a|
  {
    assert (a != [] ==> a[0] in a) && (b != [] ==> b[0] in b);
    if a != [] && b != [] {
      var x, y := a[|a| - 1], b[|b| - 1];
      assert x in b && y in a;
      assert x == y;
      var a', b' := a[..|a| - 1], b[..|b| - 1];
      forall k ensures k in a' <==> k in b' {
        assert k in a' <==> k in a && k != x;
        assert k in b' <==> k in b && k != x;
      }
      RisingUnique(a', b');
    }
  }

  /** Over all the keys there can be, in order, those that occur are the keys of the table. */
  lemma {:induction false} AllOccurring(trades: seq<Trade>, key: Trade -> int, keys: seq<int>)
    requires Rising(keys) && forall k :: k in Keys(trades, key) ==> k in keys
    ensures Occurring(trades, key, keys) == Keys(trades, key)
  {
    OccurringRises(trades, key, keys);
    KeysExact(trades, key);
    forall k ensures k in Occurring(trades, key, keys) <==> k in Keys(trades, key) {
      OccurringExact(trades, key, keys, k);
      KeyHasTrades(trades, key, k);
    }
    RisingUnique(Occurring(trades, key, keys), Keys(trades, key));
  }

  lemma {:induction false} HoursOccur(trades: seq<Trade>)
    ensures HourTable(trades) == Groups(trades, OpenHour, Occurring(trades, OpenHour, Keys(trades, OpenHour)))
  {
    KeysExact(trades, OpenHour);
    AllOccurring(trades, OpenHour, Keys(trades, OpenHour));
  }

  /** `by_hour`: the trades gathered by hour, then a row for each hour in order. */
  method ByHour(trades: seq<Trade>) returns (rows: seq<Group>)
    ensures rows == HourTable(trades)
  {
    var buckets: map<int, seq<Trade>>, i := map[], 0;
    while i < |trades|
      invariant 0 <= i <= |trades|
      invariant AreBuckets(buckets, trades[..i], OpenHour)
    {
      BucketsGrow(buckets, trades, i, OpenHour);
      buckets := Put(buckets, OpenHour(trades[i]), trades[i]);
      i := i + 1;
    }
    assert trades[..|trades|] == trades;
    HoursOccur(trades);
    rows := GroupRows(buckets, Keys(trades, OpenHour), trades, OpenHour);
  }

  /** The inner loop of `by_duration`. */
  method FindDuration(secs: int) returns (b: int)
    ensures b == BucketFrom(secs, 0)
  {
    b := 0;
    while b < |Durations| && secs >= Durations[b]
      invariant 0 <= b <= |Durations|
      invariant BucketFrom(secs, b) == BucketFrom(secs, 0)
    {
      b := b + 1;
    }
  }

  /** The duration buckets in their own order. */
  const AllDurations := [0, 1, 2, 3, 4]

  lemma {:induction false} DurationsOccur(trades: seq<Trade>)
    ensures DurationTable(trades) == Groups(trades, DurationBucket, Occurring(trades, DurationBucket, AllDurations))
  {
    forall k | k in Keys(trades, DurationBucket) ensures k in AllDurations {
      KeyHasTrades(trades, DurationBucket, k);
      var t := Bucket(trades, DurationBucket, k)[0];
      BucketMembers(trades, DurationBucket, k, t);
      assert 0 <= k <= 4;
      assert AllDurations[k] == k;
    }
    AllOccurring(trades, DurationBucket, AllDurations);
  }

  /** `by_duration`: the trades gathered by duration, then a row for each bucket that is not empty, in
      the buckets' own order. */
  method ByDuration(trades: seq<Trade>) returns (rows: seq<Group>)
    ensures rows == DurationTable(trades)
  {
    var grouped: map<int, seq<Trade>>, i := map[], 0;
    while i < |trades|
      invariant 0 <= i <= |trades|
      invariant AreBuckets(grouped, trades[..i], DurationBucket)
    {
      BucketsGrow(grouped, trades, i, DurationBucket);
      var b := FindDuration(trades[i].closeTs - trades[i].openTs);
      grouped := Put(grouped, b, trades[i]);
      i := i + 1;
    }
    assert trades[..|trades|] == trades;
    DurationsOccur(trades);
    rows := GroupRows(grouped, AllDurations, trades, DurationBucket);
  }
}
