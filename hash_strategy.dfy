/**
 * `HashShardingStrategyAWS` and its subclass `FixedHashStrategy`: records are
 * placed by user id, user queries read one shard, room and time-range queries
 * fan out over every shard. The subclass overrides the router and the save;
 * the flag `fixed` selects the overriding methods.
 */
module HashStrategy {
  import opened Common
  import opened Routing
  import opened Sorting
  import opened ShardStore

  /** `_get_shard_id`: `hash(user_id) % num_shards`, or `int(user_id) % num_shards`
      in the fixed subclass. */
  function ShardOf(fixed: bool, userId: int, numShards: int): (s: int)
    requires numShards != 0
    ensures numShards > 0 ==> 0 <= s < numShards
    ensures fixed ==> s == FixedHashShard(userId, numShards)
    ensures !fixed ==> s == HashShard(userId, numShards)
  {
    if fixed then FixedHashShard(userId, numShards) else HashShard(userId, numShards)
  }

  /** The shard a save writes to; zero shards raise before any shard is chosen. */
  function SaveShard(fixed: bool, userId: int, numShards: int): (s: int)
    ensures numShards > 0 ==> 0 <= s < numShards
    ensures numShards == 0 ==> s < 0
  {
    if numShards == 0 then -1 else ShardOf(fixed, userId, numShards)
  }

  /** The `fail_reason` value sent to MySQL: as given, or, in the fixed save,
      `str(fail_reason) if fail_reason else None`, so an empty reason becomes NULL. */
  function StoredFailReason(fixed: bool, failReason: Option<string>): (f: Option<string>)
    ensures !fixed ==> f == failReason
    ensures fixed ==> (f.None? <==> failReason.None? || failReason.value == "")
    ensures f.Some? ==> f == failReason
  {
    if fixed && failReason.Some? && failReason.value == "" then None else failReason
  }

  /** How `save_coupon_result` ends. The router runs before any `try`, so zero
      shards raise ZeroDivisionError in both versions; the fixed save fetches
      the connection inside its `try` and turns every other failure into False. */
  function SaveOutcomeOf(fixed: bool, numShards: int, shardCount: nat, userId: int, fault: ShardFault): (o: SaveOutcome)
    ensures numShards == 0 ==> o == Raised
    ensures numShards != 0 ==> (o == Saved <==> 0 <= ShardOf(fixed, userId, numShards) < shardCount && fault == Healthy)
    ensures fixed ==> (o == Raised <==> numShards == 0)
    ensures !fixed && numShards != 0 ==> o == SaveOutcomeAt(ShardOf(fixed, userId, numShards), shardCount, fault)
  {
    if numShards == 0 then Raised
    else
      var s := ShardOf(fixed, userId, numShards);
      if !fixed then SaveOutcomeAt(s, shardCount, fault)
      else if 0 <= s < shardCount && fault == Healthy then Saved
      else NotSaved
  }

  /** `query_user_coupons`: the one shard the router picks, `WHERE user_id = %s
      ORDER BY grab_time DESC`; a failing statement gives `[]`, an unknown shard
      or a failed connect raises (`None`). */
  function UserCoupons(fixed: bool, tables: seq<seq<Row>>, numShards: int, userId: int,
                       health: nat -> ShardFault): (res: Option<seq<CouponResult>>)
    ensures res.None? <==> numShards == 0 || Unreachable(tables, health, ShardOf(fixed, userId, numShards))
    ensures res.Some? ==> NewestFirst(res.value)
    ensures res.Some? ==> forall x :: x in res.value ==> x.userId == userId
    ensures res.Some? && ReadFails(health(ShardOf(fixed, userId, numShards))) ==> res.value == []
    ensures res.Some? && !ReadFails(health(ShardOf(fixed, userId, numShards))) ==>
      forall row :: row in tables[ShardOf(fixed, userId, numShards)] && row.userId == userId ==> RowToCouponResult(row) in res.value
  {
    if numShards == 0 then None
    else
      var s := ShardOf(fixed, userId, numShards);
      if Unreachable(tables, health, s) then None
      else if ReadFails(health(s)) then Some([])
      else Some(UserCouponsOnShard(tables[s], userId))
  }

  /** The rows of one shard for a user, converted, newest first. */
  function UserCouponsOnShard(table: seq<Row>, userId: int): (rs: seq<CouponResult>)
    ensures NewestFirst(rs)
    ensures forall x :: x in rs ==> x.userId == userId
    ensures forall row :: row in table && row.userId == userId ==> RowToCouponResult(row) in rs
    ensures forall x :: x in rs ==> exists row :: row in table && x == RowToCouponResult(row)
  {
    var rows := Where(table, (x: Row) => x.userId == userId);
    MergeNewestFirst(rows, |rows|)
  }

  /** `query_user_coupons` reads exactly the shard the router picks: changing
      any other shard does not change its answer. */
  lemma UserCouponsReadsOneShard(fixed: bool, tables: seq<seq<Row>>, tables': seq<seq<Row>>, numShards: int,
                                 userId: int, health: nat -> ShardFault)
    requires numShards != 0 && |tables| == |tables'|
    requires var s := ShardOf(fixed, userId, numShards); 0 <= s < |tables| ==> tables[s] == tables'[s]
    ensures UserCoupons(fixed, tables, numShards, userId, health) == UserCoupons(fixed, tables', numShards, userId, health)
  {
    var s := ShardOf(fixed, userId, numShards);
    if !Unreachable(tables, health, s) {
      assert tables[s] == tables'[s];
    }
  }

  /** Save and query route alike: after a successful save, the user's query
      on a healthy shard returns the row just written. */
  lemma SaveThenQueryUser(fixed: bool, tables: seq<seq<Row>>, numShards: int, r: CouponResult, id: int, now: Time,
                          health: nat -> ShardFault)
    requires numShards != 0
    requires 0 <= ShardOf(fixed, r.userId, numShards) < |tables|
    requires health(ShardOf(fixed, r.userId, numShards)) == Healthy
    ensures var s := ShardOf(fixed, r.userId, numShards);
      var row := NewRow(id, r, StoredFailReason(fixed, r.failReason), now);
      var after := tables[s := tables[s] + [row]];
      && UserCoupons(fixed, after, numShards, r.userId, health).Some?
      && RowToCouponResult(row) in UserCoupons(fixed, after, numShards, r.userId, health).value
  {
    var s := ShardOf(fixed, r.userId, numShards);
    var row := NewRow(id, r, StoredFailReason(fixed, r.failReason), now);
    var after := tables[s := tables[s] + [row]];
    assert row in after[s];
  }

  /** `query_room_orders`: every shard's `WHERE room_id = %s ... LIMIT %s`
      rows, merged, newest first, cut to `limit`. */
  function RoomOrders(tables: seq<seq<Row>>, numShards: int, roomId: int, limit: int,
                      health: nat -> ShardFault): (res: Option<seq<CouponResult>>)
    ensures res.None? <==> exists j :: 0 <= j < ShardCount(numShards) && Unreachable(tables, health, j)
    ensures res.Some? ==> NewestFirst(res.value)
    ensures res.Some? && limit >= 0 ==> |res.value| <= limit
    ensures res.Some? ==> forall x :: x in res.value ==> x.roomId == roomId
  {
    var select := RoomSelect(roomId, limit);
    FanOutNoneIff(tables, ShardCount(numShards), health, select);
    match FanOut(tables, ShardCount(numShards), health, select)
    case None => None
    case Some(all) =>
      FanOutKeeps(tables, ShardCount(numShards), health, select, (x: Row) => x.roomId == roomId);
      Some(MergeNewestFirst(all, limit))
  }

  function RoomSelect(roomId: int, limit: int): (nat, seq<Row>) -> Option<seq<Row>>
  {
    (j: nat, t: seq<Row>) => RoomRows(t, roomId, limit)
  }

  /** A shard whose statement fails is skipped, not fatal: when `limit` is
      large enough to cut nothing, every matching row of every shard that did
      answer is in the result. */
  lemma RoomOrdersKeepsAnsweringShards(tables: seq<seq<Row>>, numShards: int, roomId: int, limit: int,
                                       health: nat -> ShardFault, j: nat, row: Row)
    requires RoomOrders(tables, numShards, roomId, limit, health).Some?
    requires limit >= RowsHeld(tables, |tables|)
    requires j < ShardCount(numShards) && j < |tables| && !Unreachable(tables, health, j) && !ReadFails(health(j))
    requires row in tables[j] && row.roomId == roomId
    ensures RowToCouponResult(row) in RoomOrders(tables, numShards, roomId, limit, health).value
  {
    var n := ShardCount(numShards);
    var select := RoomSelect(roomId, limit);
    var all := FanOut(tables, n, health, select).value;
    RowsHeldBounds(tables, j);
    assert limit >= |tables[j]|;
    FanOutIncludes(tables, n, health, select, j, row);
    FanOutLength(tables, n, health, select);
    RowsHeldMonotone(tables, n, |tables|);
  }

  // ---------------------------------------------------------------------
  // The strategy object
  // ---------------------------------------------------------------------

  class HashShardingStrategy {
    const fixed: bool
    const numShards: int
    const db: ShardDatabases

    constructor (fixed: bool, numShards: int, db: ShardDatabases)
      ensures this.fixed == fixed && this.numShards == numShards && this.db == db
    {
      this.fixed := fixed;
      this.numShards := numShards;
      this.db := db;
    }

    /** `save_coupon_result`: one INSERT on the routed shard, committed, or no
        change at all. */
    method Save(r: CouponResult, now: Time, fault: ShardFault) returns (o: SaveOutcome)
      requires db.Valid()
      modifies db
      ensures db.Valid() && |db.tables| == |old(db.tables)|
      ensures o == SaveOutcomeOf(fixed, numShards, |old(db.tables)|, r.userId, fault)
      ensures Committed(old(db.tables), old(db.nextIds), db.tables, db.nextIds, SaveShard(fixed, r.userId, numShards),
                        r, StoredFailReason(fixed, r.failReason), now, o == Saved)
    {
      o := SaveOutcomeOf(fixed, numShards, |db.tables|, r.userId, fault);
      if o == Saved {
        var s := ShardOf(fixed, r.userId, numShards);
        db.Insert(s, r, StoredFailReason(fixed, r.failReason), now);
      }
    }

    /** `query_user_coupons` */
    method QueryUserCoupons(userId: int, health: nat -> ShardFault) returns (res: Option<seq<CouponResult>>)
      ensures res == UserCoupons(fixed, db.tables, numShards, userId, health)
    {
      if numShards == 0 {
        return None;
      }
      var s := ShardOf(fixed, userId, numShards);
      if Unreachable(db.tables, health, s) {
        return None;
      }
      if ReadFails(health(s)) {
        return Some([]);
      }
      res := Some(UserCouponsOnShard(db.tables[s], userId));
    }

    /** `query_room_orders` */
    method QueryRoomOrders(roomId: int, limit: int, health: nat -> ShardFault) returns (res: Option<seq<CouponResult>>)
      ensures res == RoomOrders(db.tables, numShards, roomId, limit, health)
    {
      var all := FanOutQuery(db, ShardCount(numShards), health, RoomSelect(roomId, limit));
      res := if all.Some? then Some(MergeNewestFirst(all.value, limit)) else None;
    }

    /** `query_time_range_orders` */
    method QueryTimeRangeOrders(start: Time, end: Time, limit: int, health: nat -> ShardFault)
      returns (res: Option<seq<CouponResult>>)
      ensures res == TimeRangeOrders(db.tables, numShards, start, end, limit, health)
    {
      var all := FanOutQuery(db, ShardCount(numShards), health, TimeRangeSelect(start, end, limit));
      res := if all.Some? then Some(MergeNewestFirst(all.value, limit)) else None;
    }

    /** `get_shard_stats`, labelled `aws_shard_{i}` */
    method GetShardStats(health: nat -> ShardFault) returns (res: Option<seq<ShardingStats>>)
      ensures res == ShardStats(db.tables, numShards, "aws_shard_", health)
    {
      res := FanOutQuery(db, ShardCount(numShards), health, StatsSelect("aws_shard_"));
    }

    /** `get_total_records` */
    method GetTotalRecords(health: nat -> ShardFault) returns (res: Option<int>)
      ensures res.None? <==> ShardStats(db.tables, numShards, "aws_shard_", health).None?
      ensures res.Some? ==> res.value == TotalRecords(ShardStats(db.tables, numShards, "aws_shard_", health).value)
      ensures res.Some? ==>
        ShardCount(numShards) <= |db.tables| && res.value == RowsCounted(db.tables, ShardCount(numShards), health)
    {
      var stats := GetShardStats(health);
      if stats.Some? {
        TotalRecordsCounted(db.tables, ShardCount(numShards), "aws_shard_", health);
      }
      res := if stats.Some? then Some(TotalRecords(stats.value)) else None;
    }

    /** `bulk_save`: saves the records one by one and counts the successes;
        the first save that raises ends the batch, with the saves before it
        kept. */
    method BulkSave(records: seq<CouponResult>, now: Time, faults: nat -> ShardFault) returns (res: Option<nat>)
      requires db.Valid()
      modifies db
      ensures db.Valid()
      ensures (res, db.tables, db.nextIds) == BulkRun(HashSaver(fixed, numShards), old(db.tables), old(db.nextIds), records, now, faults, 0, 0)
    {
      ghost var tables0, ids0 := db.tables, db.nextIds;
      var count := 0;
      var i := 0;
      while i < |records|
        invariant 0 <= i <= |records|
        invariant db.Valid()
        invariant BulkRun(HashSaver(fixed, numShards), db.tables, db.nextIds, records, now, faults, i, count)
               == BulkRun(HashSaver(fixed, numShards), tables0, ids0, records, now, faults, 0, 0)
      {
        var o := Save(records[i], now, faults(i));
        if o == Raised {
          return None;
        }
        if o == Saved {
          count := count + 1;
        }
        i := i + 1;
      }
      res := Some(count);
    }

    /** `get_strategy_name`, inherited unchanged by the fixed subclass */
    function StrategyName(): (name: string)
      ensures name == "Hash Partitioning (AWS RDS)"
    {
      "Hash Partitioning (AWS RDS)"
    }
  }

  /** How `save_coupon_result` places and ends each save of a batch. */
  function HashSaver(fixed: bool, numShards: int): Saver
  {
    Saver((r: CouponResult) => SaveShard(fixed, r.userId, numShards),
          (r: CouponResult) => StoredFailReason(fixed, r.failReason),
          (n: nat, r: CouponResult, f: ShardFault) => SaveOutcomeOf(fixed, numShards, n, r.userId, f))
  }

  /** A hash save that returns True wrote to a configured shard. */
  lemma HashSaverRoutes(fixed: bool, numShards: int)
    ensures Routes(HashSaver(fixed, numShards))
  {
  }
}
