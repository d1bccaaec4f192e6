/**
 * The sharded MySQL store behind the hash and range strategies: one result
 * table per shard, the INSERT a save performs, the SELECTs the queries issue,
 * and the shard-by-shard fan-out the cross-shard queries run. Connection and
 * statement failures are oracle parameters.
 */
module ShardStore {
  import opened Common
  import opened Sorting

  /** What happens on one shard when a strategy uses it:
      - ConnectRaises: `get_shard_connection` raises (an unknown shard id raises too);
      - NoConnection: the connection object is None;
      - ExecuteFails / CommitFails: the statement or the commit raises. */
  datatype ShardFault = Healthy | ConnectRaises | NoConnection | ExecuteFails | CommitFails

  /** Shard `j` cannot be used at all: it is not configured, or connecting raises. */
  predicate Unreachable(tables: seq<seq<Row>>, health: nat -> ShardFault, j: int)
  {
    j < 0 || j >= |tables| || health(j) == ConnectRaises
  }

  /** A read on a reachable shard raises inside the strategy's `try`. */
  predicate ReadFails(f: ShardFault)
  {
    f == NoConnection || f == ExecuteFails
  }

  /** The row `INSERT INTO ... (user_id, coupon_id, room_id, grab_status,
      fail_reason, grab_time)` creates: the given columns, `grab_time or now`,
      and the table defaults for the rest. */
  function NewRow(id: int, r: CouponResult, failReason: Option<string>, now: Time): (row: Row)
    ensures row.userId == r.userId && row.couponId == r.couponId && row.roomId == r.roomId
    ensures row.grabStatus == r.grabStatus && row.failReason == failReason
    ensures row.grabTime == r.grabTime.GetOr(now)
    ensures row.resultId == id && row.useStatus == 0 && row.useTime.None? && row.orderAmount.None?
  {
    Row(id, r.userId, r.couponId, r.roomId, r.grabStatus, failReason, r.grabTime.GetOr(now), 0, None, None)
  }

  /** Reading back a freshly inserted row gives the saved record's columns. */
  lemma InsertReadBack(id: int, r: CouponResult, now: Time)
    ensures var back := RowToCouponResult(NewRow(id, r, r.failReason, now));
      && back.userId == r.userId && back.couponId == r.couponId && back.roomId == r.roomId
      && back.grabStatus == r.grabStatus && back.failReason == r.failReason
      && back.grabTime == Some(r.grabTime.GetOr(now))
      && (r.grabTime.Some? ==> back.grabTime == r.grabTime)
  {
  }

  /** The shard databases, each with one result table and its AUTO_INCREMENT counter. */
  class ShardDatabases {
    var tables: seq<seq<Row>>
    var nextIds: seq<int>

    ghost predicate Valid()
      reads this
    {
      |nextIds| == |tables|
    }

    constructor (shardCount: nat)
      ensures Valid()
      ensures |tables| == shardCount && forall i :: 0 <= i < shardCount ==> tables[i] == []
    {
      tables := seq(shardCount, _ => []);
      nextIds := seq(shardCount, _ => 1);
    }

    predicate HasShard(shard: int)
      reads this
    {
      0 <= shard < |tables|
    }

    /** A committed INSERT on one shard. */
    method Insert(shard: int, r: CouponResult, failReason: Option<string>, now: Time)
      requires Valid() && HasShard(shard)
      modifies this
      ensures Valid()
      ensures tables == old(tables)[shard := old(tables)[shard] + [NewRow(old(nextIds)[shard], r, failReason, now)]]
      ensures nextIds == old(nextIds)[shard := old(nextIds)[shard] + 1]
    {
      tables := tables[shard := tables[shard] + [NewRow(nextIds[shard], r, failReason, now)]];
      nextIds := nextIds[shard := nextIds[shard] + 1];
    }
  }

  /** The effect of one save on the shard tables: the committed INSERT of the
      record on `shard` when it saved, no change otherwise. */
  ghost predicate Committed(tables0: seq<seq<Row>>, ids0: seq<int>, tables1: seq<seq<Row>>, ids1: seq<int>,
                            shard: int, r: CouponResult, failReason: Option<string>, now: Time, saved: bool)
  {
    if saved then
      && 0 <= shard < |tables0| == |ids0|
      && tables1 == tables0[shard := tables0[shard] + [NewRow(ids0[shard], r, failReason, now)]]
      && ids1 == ids0[shard := ids0[shard] + 1]
    else tables1 == tables0 && ids1 == ids0
  }

  /** The tables and AUTO_INCREMENT counters after one save: the committed
      INSERT on `shard` when it saved, unchanged otherwise. A save adds one
      row to the shards' total exactly when it saved. */
  function Stored(tables: seq<seq<Row>>, ids: seq<int>, shard: int, r: CouponResult, failReason: Option<string>,
                  now: Time, saved: bool): (out: (seq<seq<Row>>, seq<int>))
    requires |tables| == |ids| && (saved ==> 0 <= shard < |tables|)
    ensures |out.0| == |tables| && |out.1| == |ids|
    ensures Committed(tables, ids, out.0, out.1, shard, r, failReason, now, saved)
    ensures RowsHeld(out.0, |tables|) == RowsHeld(tables, |tables|) + if saved then 1 else 0
  {
    if saved then
      var row := NewRow(ids[shard], r, failReason, now);
      RowsHeldAppend(tables, |tables|, shard, row);
      (tables[shard := tables[shard] + [row]], ids[shard := ids[shard] + 1])
    else (tables, ids)
  }

  // ---------------------------------------------------------------------
  // SELECT statements on one table
  // ---------------------------------------------------------------------

  /** A WHERE clause, or a list comprehension's filter: the elements that
      satisfy `p`, in their original order. */
  function Where<T(!new)>(table: seq<T>, p: T -> bool): (rs: seq<T>)
    ensures forall x :: x in rs <==> x in table && p(x)
    ensures |rs| <= |table|
  {
    if table == [] then []
    else (if p(table[0]) then [table[0]] else []) + Where(table[1..], p)
  }

  /** `WHERE user_id = %s ORDER BY grab_time DESC` */
  function UserRows(table: seq<Row>, userId: int): (rs: seq<Row>)
    ensures forall x :: x in rs <==> x in table && x.userId == userId
  {
    SortDescMembersAll(Where(table, (x: Row) => x.userId == userId));
    SortDesc(Where(table, (x: Row) => x.userId == userId))
  }

  /** `WHERE room_id = %s ORDER BY grab_time DESC LIMIT %s`; a negative LIMIT
      is a SQL error. */
  function RoomRows(table: seq<Row>, roomId: int, limit: int): (rs: Option<seq<Row>>)
    ensures rs.Some? <==> limit >= 0
    ensures rs.Some? ==> |rs.value| <= limit
    ensures rs.Some? ==> forall x :: x in rs.value ==> x in table && x.roomId == roomId
    ensures rs.Some? && limit >= |table| ==> forall x :: x in table && x.roomId == roomId ==> x in rs.value
  {
    if limit < 0 then None
    else
      var all := Where(table, (x: Row) => x.roomId == roomId);
      SortDescMembersAll(all);
      Some(Take(SortDesc(all), limit))
  }

  /** `WHERE grab_time BETWEEN %s AND %s ORDER BY grab_time DESC LIMIT %s` */
  function TimeRangeRows(table: seq<Row>, start: Time, end: Time, limit: int): (rs: Option<seq<Row>>)
    ensures rs.Some? <==> limit >= 0
    ensures rs.Some? ==> |rs.value| <= limit
    ensures rs.Some? ==> forall x :: x in rs.value ==> x in table && start <= x.grabTime <= end
    ensures rs.Some? && limit >= |table| ==> forall x :: x in table && start <= x.grabTime <= end ==> x in rs.value
  {
    if limit < 0 then None
    else
      var all := Where(table, (x: Row) => start <= x.grabTime <= end);
      SortDescMembersAll(all);
      Some(Take(SortDesc(all), limit))
  }

  lemma SortDescMembersAll(s: seq<Row>)
    ensures forall x :: x in SortDesc(s) <==> x in s
  {
    forall x ensures x in SortDesc(s) <==> x in s {
      SortDescMembers(s, x);
    }
  }

  // ---------------------------------------------------------------------
  // Fan-out over shards 0 .. n-1
  // ---------------------------------------------------------------------

  /** The loop `for shard_id in range(n)` of a cross-shard query: a shard whose
      connection raises aborts the whole query (the call sits outside the
      `try`); a shard whose statement raises is logged and skipped; otherwise
      its answer is appended. `None` stands for the propagated exception. */
  function FanOut<T>(tables: seq<seq<Row>>, n: nat, health: nat -> ShardFault,
                     select: (nat, seq<Row>) -> Option<seq<T>>): (r: Option<seq<T>>)
    ensures r.Some? ==> n <= |tables|
    decreases n
  {
    if n == 0 then Some([])
    else match FanOut(tables, n - 1, health, select)
      case None => None
      case Some(acc) =>
        var sh := n - 1;
        if Unreachable(tables, health, sh) then None
        else if ReadFails(health(sh)) then Some(acc)
        else match select(sh, tables[sh])
          case None => Some(acc)
          case Some(part) => Some(acc + part)
  }

  /** Once the fan-out has raised, visiting more shards does not undo it. */
  lemma {:induction false} FanOutAbortSticky<T>(tables: seq<seq<Row>>, k: nat, n: nat, health: nat -> ShardFault,
                                                select: (nat, seq<Row>) -> Option<seq<T>>)
    requires k <= n && FanOut(tables, k, health, select).None?
    ensures FanOut(tables, n, health, select).None?
    decreases n - k
  {
    if k < n {
      FanOutAbortSticky(tables, k, n - 1, health, select);
    }
  }

  /** Every element of a fan-out's answer was produced by a shard it visited. */
  lemma {:induction false} FanOutOnly<T>(tables: seq<seq<Row>>, n: nat, health: nat -> ShardFault,
                                         select: (nat, seq<Row>) -> Option<seq<T>>, x: T)
    requires FanOut(tables, n, health, select).Some?
    requires x in FanOut(tables, n, health, select).value
    ensures exists j :: 0 <= j < n && j < |tables| && !ReadFails(health(j)) && health(j) != ConnectRaises
                     && select(j, tables[j]).Some? && x in select(j, tables[j]).value
    decreases n
  {
    var acc := FanOut(tables, n - 1, health, select);
    var sh := n - 1;
    if x in acc.value {
      FanOutOnly(tables, n - 1, health, select, x);
    } else {
      assert select(sh, tables[sh]).Some? && x in select(sh, tables[sh]).value;
    }
  }

  /** A shard that answered contributes all of its answer, whatever its
      neighbours did: failing shards are skipped, not fatal. */
  lemma {:induction false} FanOutIncludes<T>(tables: seq<seq<Row>>, n: nat, health: nat -> ShardFault,
                                             select: (nat, seq<Row>) -> Option<seq<T>>, j: nat, x: T)
    requires FanOut(tables, n, health, select).Some?
    requires j < n && j < |tables| && !ReadFails(health(j)) && health(j) != ConnectRaises
    requires select(j, tables[j]).Some? && x in select(j, tables[j]).value
    ensures x in FanOut(tables, n, health, select).value
    decreases n
  {
    var acc := FanOut(tables, n - 1, health, select);
    if j < n - 1 {
      FanOutIncludes(tables, n - 1, health, select, j, x);
    }
  }

  /** The loop that builds `all_results` with `extend`. */
  method FanOutQuery<T>(db: ShardDatabases, n: nat, health: nat -> ShardFault,
                        select: (nat, seq<Row>) -> Option<seq<T>>) returns (res: Option<seq<T>>)
    ensures res == FanOut(db.tables, n, health, select)
  {
    var all: seq<T> := [];
    var i := 0;
    while i < n
      invariant 0 <= i <= n
      invariant FanOut(db.tables, i, health, select) == Some(all)
    {
      if Unreachable(db.tables, health, i) {
        FanOutAbortSticky(db.tables, i + 1, n, health, select);
        return None;
      }
      if !ReadFails(health(i)) {
        var part := select(i, db.tables[i]);
        if part.Some? {
          all := all + part.value;
        }
      }
      i := i + 1;
    }
    res := Some(all);
  }

  /** How the fan-out ends is decided by the shards alone: it raises exactly
      when some visited shard is unknown or cannot be connected to. */
  lemma {:induction false} FanOutNoneIff<T>(tables: seq<seq<Row>>, n: nat, health: nat -> ShardFault,
                                            select: (nat, seq<Row>) -> Option<seq<T>>)
    ensures FanOut(tables, n, health, select).None?
        <==> exists j :: 0 <= j < n && Unreachable(tables, health, j)
    decreases n
  {
    if n > 0 {
      FanOutNoneIff(tables, n - 1, health, select);
      var sh := n - 1;
      if FanOut(tables, n - 1, health, select).None? {
        var j :| 0 <= j < n - 1 && Unreachable(tables, health, j);
        assert 0 <= j < n;
      } else if Unreachable(tables, health, sh) {
        assert 0 <= sh < n;
        assert FanOut(tables, n, health, select).None?;
      } else {
        assert FanOut(tables, n, health, select).Some?;
        assert forall j :: 0 <= j < n ==> !Unreachable(tables, health, j) by {
          forall j | 0 <= j < n ensures !Unreachable(tables, health, j) {
            if j < n - 1 {
            } else {
              assert j == sh;
            }
          }
        }
      }
    }
  }

  /** A property every shard's answer has, the merged answer has. */
  lemma {:induction false} FanOutKeeps<T>(tables: seq<seq<Row>>, n: nat, health: nat -> ShardFault,
                                          select: (nat, seq<Row>) -> Option<seq<T>>, p: T -> bool)
    requires forall j: nat, t: seq<Row> :: select(j, t).Some? ==> forall x :: x in select(j, t).value ==> p(x)
    requires FanOut(tables, n, health, select).Some?
    ensures forall x :: x in FanOut(tables, n, health, select).value ==> p(x)
    decreases n
  {
    if n > 0 {
      FanOutKeeps(tables, n - 1, health, select, p);
    }
  }

  /** When no shard answers with more rows than it holds, the merged answer is
      no longer than the rows the visited shards hold. */
  lemma {:induction false} FanOutLength<T>(tables: seq<seq<Row>>, n: nat, health: nat -> ShardFault,
                                           select: (nat, seq<Row>) -> Option<seq<T>>)
    requires forall j: nat, t: seq<Row> :: select(j, t).Some? ==> |select(j, t).value| <= |t|
    requires FanOut(tables, n, health, select).Some?
    ensures n <= |tables|
    ensures |FanOut(tables, n, health, select).value| <= RowsHeld(tables, n)
    decreases n
  {
    FanOutNoneIff(tables, n, health, select);
    if n > 0 {
      FanOutLength(tables, n - 1, health, select);
    }
  }

  /** The number of shards `range(num_shards)` visits. */
  function ShardCount(numShards: int): nat
  {
    if numShards < 0 then 0 else numShards
  }

  /** `all_results.sort(key=lambda x: x.grab_time, reverse=True)` followed by
      `all_results[:limit]`, on the merged rows. */
  function MergeNewestFirst(all: seq<Row>, limit: int): (rs: seq<CouponResult>)
    ensures limit >= 0 ==> |rs| <= limit
    ensures |rs| <= |all|
    ensures NewestFirst(rs)
    ensures forall x :: x in rs ==> exists row :: row in all && x == RowToCouponResult(row)
    ensures limit >= |all| ==> forall row :: row in all ==> RowToCouponResult(row) in rs
  {
    var sorted := SortDesc(all);
    SortDescSorted(all);
    PrefixSorted(sorted, limit);
    ResultsNewestFirst(Take(sorted, limit));
    SortDescMembersAll(all);
    RowsToResults(Take(sorted, limit))
  }

  function TimeRangeSelect(start: Time, end: Time, limit: int): (nat, seq<Row>) -> Option<seq<Row>>
  {
    (j: nat, t: seq<Row>) => TimeRangeRows(t, start, end, limit)
  }

  /** The cross-shard time-range query shared by both database strategies:
      every shard's `BETWEEN` rows, merged, newest first, truncated. */
  function TimeRangeOrders(tables: seq<seq<Row>>, numShards: int, start: Time, end: Time, limit: int,
                           health: nat -> ShardFault): (res: Option<seq<CouponResult>>)
    ensures res.None? <==> exists j :: 0 <= j < ShardCount(numShards) && Unreachable(tables, health, j)
    ensures res.Some? ==> NewestFirst(res.value)
    ensures res.Some? && limit >= 0 ==> |res.value| <= limit
    ensures res.Some? ==> forall x :: x in res.value ==> x.grabTime.Some? && start <= x.grabTime.value <= end
  {
    var select := TimeRangeSelect(start, end, limit);
    FanOutNoneIff(tables, ShardCount(numShards), health, select);
    match FanOut(tables, ShardCount(numShards), health, select)
    case None => None
    case Some(all) =>
      FanOutKeeps(tables, ShardCount(numShards), health, select, (x: Row) => start <= x.grabTime <= end);
      Some(MergeNewestFirst(all, limit))
  }

  // ---------------------------------------------------------------------
  // Statistics
  // ---------------------------------------------------------------------

  /** The entry `get_shard_stats` appends for a shard it could count. */
  function StatsEntry(prefix: string, shard: nat, table: seq<Row>): ShardingStats
  {
    ShardingStats(prefix + NatText(shard), |table|, 0.0, 0.0, 0.0, 0)
  }

  function StatsSelect(prefix: string): (nat, seq<Row>) -> Option<seq<ShardingStats>>
  {
    (j: nat, t: seq<Row>) => Some([StatsEntry(prefix, j, t)])
  }

  /** `get_shard_stats` of a database strategy: one `SELECT COUNT(*)` per shard;
      a shard whose count raises inside the `try` is left out. */
  function ShardStats(tables: seq<seq<Row>>, numShards: int, prefix: string,
                      health: nat -> ShardFault): (res: Option<seq<ShardingStats>>)
    ensures res.None? <==> exists j :: 0 <= j < ShardCount(numShards) && Unreachable(tables, health, j)
  {
    var select := StatsSelect(prefix);
    FanOutNoneIff(tables, ShardCount(numShards), health, select);
    FanOut(tables, ShardCount(numShards), health, select)
  }

  /** The shards among 0 .. n-1 whose count answers, in shard order. */
  function CountedShards(n: nat, health: nat -> ShardFault): (idx: seq<nat>)
    ensures forall j: nat :: j in idx <==> j < n && !ReadFails(health(j))
    ensures forall a, b :: 0 <= a < b < |idx| ==> idx[a] < idx[b]
    decreases n
  {
    if n == 0 then []
    else
      var prev := CountedShards(n - 1, health);
      assert forall k :: 0 <= k < |prev| ==> prev[k] in prev;
      prev + (if ReadFails(health(n - 1)) then [] else [n - 1])
  }

  /** `stats` holds, entry by entry, the stats of the shards `idx`. */
  predicate EntriesOf(stats: seq<ShardingStats>, idx: seq<nat>, tables: seq<seq<Row>>, prefix: string)
  {
    && |stats| == |idx|
    && forall k :: 0 <= k < |idx| ==> idx[k] < |tables| && stats[k] == StatsEntry(prefix, idx[k], tables[idx[k]])
  }

  lemma EntriesOfAppend(stats: seq<ShardingStats>, idx: seq<nat>, tables: seq<seq<Row>>, prefix: string, j: nat)
    requires EntriesOf(stats, idx, tables, prefix) && j < |tables|
    ensures EntriesOf(stats + [StatsEntry(prefix, j, tables[j])], idx + [j], tables, prefix)
  {
    var e := StatsEntry(prefix, j, tables[j]);
    forall k | 0 <= k < |idx| + 1
      ensures (idx + [j])[k] < |tables| && (stats + [e])[k] == StatsEntry(prefix, (idx + [j])[k], tables[(idx + [j])[k]])
    {
      if k < |idx| {
        assert (stats + [e])[k] == stats[k];
        assert (idx + [j])[k] == idx[k];
      }
    }
  }

  /** Exactly one entry per shard whose count answered, in shard order, each
      reporting that shard's row count under the shard's label. */
  lemma {:induction false} ShardStatsShape(tables: seq<seq<Row>>, n: nat, prefix: string, health: nat -> ShardFault)
    requires ShardStats(tables, n, prefix, health).Some?
    ensures n <= |tables|
    ensures EntriesOf(ShardStats(tables, n, prefix, health).value, CountedShards(n, health), tables, prefix)
    decreases n
  {
    var select := StatsSelect(prefix);
    assert ShardStats(tables, n, prefix, health) == FanOut(tables, n, health, select);
    if n > 0 {
      assert ShardStats(tables, n - 1, prefix, health) == FanOut(tables, n - 1, health, select);
      ShardStatsShape(tables, n - 1, prefix, health);
      assert !Unreachable(tables, health, n - 1);
      var prev := ShardStats(tables, n - 1, prefix, health).value;
      var idx := CountedShards(n - 1, health);
      if !ReadFails(health(n - 1)) {
        var e := StatsEntry(prefix, n - 1, tables[n - 1]);
        assert ShardStats(tables, n, prefix, health).value == prev + [e];
        assert CountedShards(n, health) == idx + [n - 1];
        EntriesOfAppend(prev, idx, tables, prefix, n - 1);
      } else {
        assert CountedShards(n, health) == idx;
      }
    }
  }

  /** The rows held by the shards among 0 .. n-1 whose count answers. */
  function RowsCounted(tables: seq<seq<Row>>, n: nat, health: nat -> ShardFault): (r: nat)
    requires n <= |tables|
    ensures r <= RowsHeld(tables, n)
    ensures (forall j :: 0 <= j < n ==> !ReadFails(health(j))) ==> r == RowsHeld(tables, n)
    decreases n
  {
    if n == 0 then 0
    else RowsCounted(tables, n - 1, health) + if ReadFails(health(n - 1)) then 0 else |tables[n - 1]|
  }

  /** `get_total_records` after some counts failed: the sum covers exactly the
      shards that answered. */
  lemma {:induction false} TotalRecordsCounted(tables: seq<seq<Row>>, n: nat, prefix: string, health: nat -> ShardFault)
    requires ShardStats(tables, n, prefix, health).Some?
    ensures n <= |tables|
    ensures TotalRecords(ShardStats(tables, n, prefix, health).value) == RowsCounted(tables, n, health)
    decreases n
  {
    var select := StatsSelect(prefix);
    assert ShardStats(tables, n, prefix, health) == FanOut(tables, n, health, select);
    if n > 0 {
      assert ShardStats(tables, n - 1, prefix, health) == FanOut(tables, n - 1, health, select);
      TotalRecordsCounted(tables, n - 1, prefix, health);
      assert !Unreachable(tables, health, n - 1);
      var prev := ShardStats(tables, n - 1, prefix, health).value;
      if !ReadFails(health(n - 1)) {
        var e := StatsEntry(prefix, n - 1, tables[n - 1]);
        assert ShardStats(tables, n, prefix, health).value == prev + [e];
        TotalRecordsAppend(prev, [e]);
        assert TotalRecords([e]) == |tables[n - 1]|;
      }
    }
  }

  /** When every shard answers, there is exactly one entry per shard, in shard order. */
  lemma {:induction false} ShardStatsAllHealthy(tables: seq<seq<Row>>, n: nat, prefix: string, health: nat -> ShardFault)
    requires n <= |tables|
    requires forall j :: 0 <= j < n ==> health(j) == Healthy
    ensures ShardStats(tables, n, prefix, health).Some?
    ensures |ShardStats(tables, n, prefix, health).value| == n
    ensures forall j :: 0 <= j < n ==> ShardStats(tables, n, prefix, health).value[j] == StatsEntry(prefix, j, tables[j])
    decreases n
  {
    var select := StatsSelect(prefix);
    assert ShardStats(tables, n, prefix, health) == FanOut(tables, n, health, select);
    if n > 0 {
      assert ShardStats(tables, n - 1, prefix, health) == FanOut(tables, n - 1, health, select);
      ShardStatsAllHealthy(tables, n - 1, prefix, health);
      var prev := FanOut(tables, n - 1, health, select).value;
      var last := StatsEntry(prefix, n - 1, tables[n - 1]);
      assert health(n - 1) == Healthy;
      assert select(n - 1, tables[n - 1]) == Some([last]);
      assert FanOut(tables, n, health, select) == Some(prev + [last]);
      forall j | 0 <= j < n
        ensures (prev + [last])[j] == StatsEntry(prefix, j, tables[j])
      {
        if j < n - 1 {
          assert (prev + [last])[j] == prev[j];
        }
      }
    }
  }

  /** `sum(s.total_records for s in stats)` */
  function TotalRecords(stats: seq<ShardingStats>): (total: int)
    ensures (forall i :: 0 <= i < |stats| ==> stats[i].totalRecords >= 0) ==> total >= 0
  {
    if stats == [] then 0 else stats[0].totalRecords + TotalRecords(stats[1..])
  }

  /** The number of rows held by shards 0 .. n-1. */
  function RowsHeld(tables: seq<seq<Row>>, n: nat): nat
    requires n <= |tables|
  {
    if n == 0 then 0 else RowsHeld(tables, n - 1) + |tables[n - 1]|
  }

  lemma {:induction false} RowsHeldMonotone(tables: seq<seq<Row>>, a: nat, b: nat)
    requires a <= b <= |tables|
    ensures RowsHeld(tables, a) <= RowsHeld(tables, b)
    decreases b
  {
    if a < b {
      RowsHeldMonotone(tables, a, b - 1);
    }
  }

  /** Appending a row to shard `s` adds one to the rows held by the shards
      before `n` when `s` is one of them. */
  lemma {:induction false} RowsHeldAppend(tables: seq<seq<Row>>, n: nat, s: nat, row: Row)
    requires n <= |tables| && s < |tables|
    ensures RowsHeld(tables[s := tables[s] + [row]], n) == RowsHeld(tables, n) + if s < n then 1 else 0
    decreases n
  {
    if n > 0 {
      RowsHeldAppend(tables, n - 1, s, row);
    }
  }

  /** No single shard holds more rows than all of them together. */
  lemma RowsHeldBounds(tables: seq<seq<Row>>, j: nat)
    requires j < |tables|
    ensures |tables[j]| <= RowsHeld(tables, |tables|)
  {
    RowsHeldMonotone(tables, j + 1, |tables|);
  }

  lemma {:induction false} TotalRecordsAppend(a: seq<ShardingStats>, b: seq<ShardingStats>)
    ensures TotalRecords(a + b) == TotalRecords(a) + TotalRecords(b)
  {
    if a == [] {
      assert a + b == b;
    } else {
      assert (a + b)[1..] == a[1..] + b;
      TotalRecordsAppend(a[1..], b);
    }
  }

  /** `get_total_records` over healthy shards counts every stored row. */
  lemma {:induction false} TotalRecordsAllHealthy(tables: seq<seq<Row>>, n: nat, prefix: string, health: nat -> ShardFault)
    requires n <= |tables|
    requires forall j :: 0 <= j < n ==> health(j) == Healthy
    ensures ShardStats(tables, n, prefix, health).Some?
    ensures TotalRecords(ShardStats(tables, n, prefix, health).value) == RowsHeld(tables, n)
    decreases n
  {
    ShardStatsAllHealthy(tables, n, prefix, health);
    if n > 0 {
      ShardStatsAllHealthy(tables, n - 1, prefix, health);
      TotalRecordsAllHealthy(tables, n - 1, prefix, health);
      var prev := ShardStats(tables, n - 1, prefix, health).value;
      var e := StatsEntry(prefix, n - 1, tables[n - 1]);
      assert ShardStats(tables, n, prefix, health).value == prev + [e];
      TotalRecordsAppend(prev, [e]);
      assert TotalRecords([e]) == |tables[n - 1]|;
    }
  }

  // ---------------------------------------------------------------------
  // Save outcomes
  // ---------------------------------------------------------------------

  /** How a save ends: True, False, or an exception that reaches the caller. */
  datatype SaveOutcome = Saved | NotSaved | Raised

  /** A save whose connection is fetched before its `try` (the hash and range
      strategies): an unknown shard or a failed connect raises; a None
      connection raises again in the `except` when `rollback` is called on it;
      a failed INSERT or commit is rolled back and reported as False. */
  function SaveOutcomeAt(shard: int, shardCount: nat, fault: ShardFault): (o: SaveOutcome)
    ensures o == Saved <==> 0 <= shard < shardCount && fault == Healthy
    ensures o == Raised <==> !(0 <= shard < shardCount) || fault == ConnectRaises || fault == NoConnection
  {
    if !(0 <= shard < shardCount) || fault == ConnectRaises || fault == NoConnection then Raised
    else if fault == Healthy then Saved
    else NotSaved
  }

  /** `bulk_save`: the number of saves that returned True, unless one raised,
      in which case the exception propagates. */
  function CountSaved(outcomes: seq<SaveOutcome>): (r: Option<nat>)
    ensures r.Some? <==> Raised !in outcomes
    ensures r.Some? ==> r.value <= |outcomes|
  {
    if outcomes == [] then Some(0)
    else match CountSaved(outcomes[1..])
      case None => None
      case Some(k) =>
        assert outcomes == [outcomes[0]] + outcomes[1..];
        if outcomes[0] == Raised then None
        else if outcomes[0] == Saved then Some(k + 1)
        else Some(k)
  }

  /** The count is the whole batch exactly when every save succeeded, and zero
      exactly when none did. */
  lemma {:induction false} CountSavedExtremes(outcomes: seq<SaveOutcome>)
    requires Raised !in outcomes
    ensures CountSaved(outcomes).value == |outcomes| <==> forall o :: o in outcomes ==> o == Saved
    ensures CountSaved(outcomes).value == 0 <==> Saved !in outcomes
  {
    if outcomes != [] {
      assert outcomes == [outcomes[0]] + outcomes[1..];
      assert forall o :: o in outcomes <==> o == outcomes[0] || o in outcomes[1..];
      assert outcomes[0] in outcomes;
      CountSavedExtremes(outcomes[1..]);
    }
  }

  /** Counting the outcomes from `i` on: the outcome at `i`, then the rest. */
  lemma CountSavedFrom(outcomes: seq<SaveOutcome>, i: nat)
    requires i < |outcomes|
    ensures CountSaved(outcomes[i..]) ==
      if outcomes[i] == Raised || CountSaved(outcomes[i + 1..]).None? then None
      else Some(CountSaved(outcomes[i + 1..]).value + if outcomes[i] == Saved then 1 else 0)
  {
    assert outcomes[i..][1..] == outcomes[i + 1..];
  }

  // ---------------------------------------------------------------------
  // `bulk_save` over a database strategy
  // ---------------------------------------------------------------------

  /** How a strategy saves one record: the shard it writes to, the
      `fail_reason` it stores, and how the save ends for a given number of
      configured shards and a given fault. */
  datatype Saver = Saver(shard: CouponResult -> int, reason: CouponResult -> Option<string>,
                         outcome: (nat, CouponResult, ShardFault) -> SaveOutcome)

  /** A save that returns True wrote to a configured shard. */
  ghost predicate Routes(sv: Saver)
  {
    forall n: nat, r: CouponResult, f: ShardFault :: sv.outcome(n, r, f) == Saved ==> 0 <= sv.shard(r) < n
  }

  /** The outcome of each save of a batch, in order; whether a save succeeds
      does not depend on the rows already stored. */
  function Outcomes(sv: Saver, shardCount: nat, records: seq<CouponResult>, faults: nat -> ShardFault): (os: seq<SaveOutcome>)
    ensures |os| == |records|
    ensures forall i :: 0 <= i < |records| ==> os[i] == sv.outcome(shardCount, records[i], faults(i))
  {
    seq(|records|, i requires 0 <= i < |records| => sv.outcome(shardCount, records[i], faults(i)))
  }

  /** The `bulk_save` loop from record `i` on, with `count` successes so far:
      the count it returns (`None` when a save raises, which ends the batch)
      and the tables and counters it leaves. */
  function BulkRun(sv: Saver, tables: seq<seq<Row>>, ids: seq<int>, records: seq<CouponResult>, now: Time,
                   faults: nat -> ShardFault, i: nat, count: nat): (out: (Option<nat>, seq<seq<Row>>, seq<int>))
    requires |tables| == |ids|
    ensures |out.1| == |tables| && |out.2| == |ids|
    decreases |records| - i
  {
    if i >= |records| then (Some(count), tables, ids)
    else
      var r := records[i];
      var o := sv.outcome(|tables|, r, faults(i));
      if o == Raised then (None, tables, ids)
      else
        var st := Stored(tables, ids, sv.shard(r), r, sv.reason(r), now, o == Saved && 0 <= sv.shard(r) < |tables|);
        BulkRun(sv, st.0, st.1, records, now, faults, i + 1, count + if o == Saved then 1 else 0)
  }

  /** The counting half of the `bulk_save` loop, over the outcomes alone. */
  function CountFrom(outcomes: seq<SaveOutcome>, i: nat, count: nat): Option<nat>
    decreases |outcomes| - i
  {
    if i >= |outcomes| then Some(count)
    else if outcomes[i] == Raised then None
    else CountFrom(outcomes, i + 1, count + if outcomes[i] == Saved then 1 else 0)
  }

  /** Counting from `i` on is counting the suffix, offset by what was
      already counted. */
  lemma {:induction false} CountFromSuffix(outcomes: seq<SaveOutcome>, i: nat, count: nat)
    requires i <= |outcomes|
    ensures CountFrom(outcomes, i, count)
         == if CountSaved(outcomes[i..]).None? then None else Some(count + CountSaved(outcomes[i..]).value)
    decreases |outcomes| - i
  {
    if i == |outcomes| {
      assert outcomes[i..] == [];
    } else {
      CountSavedFrom(outcomes, i);
      CountFromSuffix(outcomes, i + 1, count + if outcomes[i] == Saved then 1 else 0);
    }
  }

  /** The loop's count from the start is `CountSaved`. */
  lemma CountFromStart(outcomes: seq<SaveOutcome>)
    ensures CountFrom(outcomes, 0, 0) == CountSaved(outcomes)
  {
    CountFromSuffix(outcomes, 0, 0);
    assert outcomes[0..] == outcomes;
  }

  /** The count `BulkRun` returns depends on the outcomes alone. */
  lemma {:induction false} BulkRunCountFrom(sv: Saver, tables: seq<seq<Row>>, ids: seq<int>, records: seq<CouponResult>,
                                            now: Time, faults: nat -> ShardFault, i: nat, count: nat)
    requires |tables| == |ids|
    ensures BulkRun(sv, tables, ids, records, now, faults, i, count).0 == CountFrom(Outcomes(sv, |tables|, records, faults), i, count)
    decreases |records| - i
  {
    if i < |records| {
      var r := records[i];
      var o := sv.outcome(|tables|, r, faults(i));
      if o != Raised {
        var st := Stored(tables, ids, sv.shard(r), r, sv.reason(r), now, o == Saved && 0 <= sv.shard(r) < |tables|);
        BulkRunCountFrom(sv, st.0, st.1, records, now, faults, i + 1, count + if o == Saved then 1 else 0);
        assert Outcomes(sv, |st.0|, records, faults) == Outcomes(sv, |tables|, records, faults);
      }
    }
  }

  /** `bulk_save` returns the number of saves that returned True, and raises
      exactly when one of them raises. */
  lemma BulkRunCounts(sv: Saver, tables: seq<seq<Row>>, ids: seq<int>, records: seq<CouponResult>,
                      now: Time, faults: nat -> ShardFault)
    requires |tables| == |ids|
    ensures BulkRun(sv, tables, ids, records, now, faults, 0, 0).0 == CountSaved(Outcomes(sv, |tables|, records, faults))
  {
    BulkRunCountFrom(sv, tables, ids, records, now, faults, 0, 0);
    CountFromStart(Outcomes(sv, |tables|, records, faults));
  }

  /** The count `bulk_save` returns is the number of rows the batch added. */
  lemma {:induction false} BulkRunAddsRows(sv: Saver, tables: seq<seq<Row>>, ids: seq<int>, records: seq<CouponResult>,
                                           now: Time, faults: nat -> ShardFault, i: nat, count: nat)
    requires Routes(sv) && |tables| == |ids|
    ensures var out := BulkRun(sv, tables, ids, records, now, faults, i, count);
      out.0.Some? ==> RowsHeld(out.1, |tables|) + count == RowsHeld(tables, |tables|) + out.0.value
    decreases |records| - i
  {
    if i < |records| {
      var r := records[i];
      var o := sv.outcome(|tables|, r, faults(i));
      if o != Raised {
        var st := Stored(tables, ids, sv.shard(r), r, sv.reason(r), now, o == Saved && 0 <= sv.shard(r) < |tables|);
        BulkRunAddsRows(sv, st.0, st.1, records, now, faults, i + 1, count + if o == Saved then 1 else 0);
      }
    }
  }

  /** A batch whose saves all succeed adds every record, each as one row. */
  lemma BulkRunAllSaved(sv: Saver, tables: seq<seq<Row>>, ids: seq<int>, records: seq<CouponResult>,
                        now: Time, faults: nat -> ShardFault)
    requires Routes(sv) && |tables| == |ids|
    requires forall i :: 0 <= i < |records| ==> sv.outcome(|tables|, records[i], faults(i)) == Saved
    ensures var out := BulkRun(sv, tables, ids, records, now, faults, 0, 0);
      && out.0 == Some(|records|)
      && RowsHeld(out.1, |tables|) == RowsHeld(tables, |tables|) + |records|
  {
    var os := Outcomes(sv, |tables|, records, faults);
    BulkRunCounts(sv, tables, ids, records, now, faults);
    BulkRunAddsRows(sv, tables, ids, records, now, faults, 0, 0);
    assert forall o :: o in os ==> o == Saved;
    CountSavedExtremes(os);
  }
}
