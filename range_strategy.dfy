/**
 * `RangeShardingStrategy`: records are placed by room id through the fixed
 * interval table; room queries read one shard, user and time-range queries
 * fan out over every shard.
 */
module RangeStrategy {
  import opened Common
  import opened Routing
  import opened Sorting
  import opened ShardStore

  /** How `save_coupon_result` ends: the shard is chosen by `room_id`. */
  function RangeSaveOutcome(numShards: int, shardCount: nat, roomId: int, fault: ShardFault): (o: SaveOutcome)
    ensures o == SaveOutcomeAt(RangeShard(roomId, numShards), shardCount, fault)
    ensures o == Saved ==> 0 <= RangeShard(roomId, numShards) < shardCount
  {
    SaveOutcomeAt(RangeShard(roomId, numShards), shardCount, fault)
  }

  function UserSelect(userId: int): (nat, seq<Row>) -> Option<seq<Row>>
  {
    (j: nat, t: seq<Row>) => Some(UserRows(t, userId))
  }

  /** `query_user_coupons`: every shard's rows for the user, concatenated in
      shard order, with no merge sort and no limit. */
  function UserCouponsAll(tables: seq<seq<Row>>, numShards: int, userId: int,
                          health: nat -> ShardFault): (res: Option<seq<CouponResult>>)
    ensures res.None? <==> exists j :: 0 <= j < ShardCount(numShards) && Unreachable(tables, health, j)
    ensures res.Some? ==> forall x :: x in res.value ==> x.userId == userId
  {
    var select := UserSelect(userId);
    FanOutNoneIff(tables, ShardCount(numShards), health, select);
    match FanOut(tables, ShardCount(numShards), health, select)
    case None => None
    case Some(all) =>
      FanOutKeeps(tables, ShardCount(numShards), health, select, (x: Row) => x.userId == userId);
      Some(RowsToResults(all))
  }

  /** Every row of the user on a shard that answered is returned, and nothing
      else: the user query is complete over the shards it could read. */
  lemma UserCouponsAllExact(tables: seq<seq<Row>>, numShards: int, userId: int, health: nat -> ShardFault, x: CouponResult)
    requires UserCouponsAll(tables, numShards, userId, health).Some?
    ensures x in UserCouponsAll(tables, numShards, userId, health).value
        <==> exists j, row :: 0 <= j < ShardCount(numShards) && j < |tables| && !ReadFails(health(j))
                             && row in tables[j] && row.userId == userId && x == RowToCouponResult(row)
  {
    var n := ShardCount(numShards);
    var select := UserSelect(userId);
    var all := FanOut(tables, n, health, select).value;
    FanOutNoneIff(tables, n, health, select);
    if x in UserCouponsAll(tables, numShards, userId, health).value {
      var row :| row in all && x == RowToCouponResult(row);
      FanOutOnly(tables, n, health, select, row);
      var j :| 0 <= j < n && j < |tables| && !ReadFails(health(j)) && health(j) != ConnectRaises
               && select(j, tables[j]).Some? && row in select(j, tables[j]).value;
      assert row in tables[j] && row.userId == userId;
    }
    if exists j, row :: 0 <= j < n && j < |tables| && !ReadFails(health(j))
                        && row in tables[j] && row.userId == userId && x == RowToCouponResult(row) {
      var j, row :| 0 <= j < n && j < |tables| && !ReadFails(health(j))
                    && row in tables[j] && row.userId == userId && x == RowToCouponResult(row);
      assert !Unreachable(tables, health, j);
      FanOutIncludes(tables, n, health, select, j, row);
    }
  }

  /** `query_room_orders`: only the shard `_get_shard_id(room_id)`; a failing
      statement, a negative LIMIT among them, gives `[]`. */
  function RoomOrdersOneShard(tables: seq<seq<Row>>, numShards: int, roomId: int, limit: int,
                              health: nat -> ShardFault): (res: Option<seq<CouponResult>>)
    ensures res.None? <==> Unreachable(tables, health, RangeShard(roomId, numShards))
    ensures res.Some? ==> NewestFirst(res.value)
    ensures res.Some? && limit >= 0 ==> |res.value| <= limit
    ensures res.Some? ==> forall x :: x in res.value ==> x.roomId == roomId
    ensures res.Some? && (ReadFails(health(RangeShard(roomId, numShards))) || limit < 0) ==> res.value == []
    ensures res.Some? && !ReadFails(health(RangeShard(roomId, numShards))) && limit >= |tables[RangeShard(roomId, numShards)]| ==>
      forall row :: row in tables[RangeShard(roomId, numShards)] && row.roomId == roomId ==> RowToCouponResult(row) in res.value
  {
    var s := RangeShard(roomId, numShards);
    if Unreachable(tables, health, s) then None
    else if ReadFails(health(s)) then Some([])
    else match RoomRows(tables[s], roomId, limit)
      case None => Some([])
      case Some(rows) =>
        SortedRoomRows(tables[s], roomId, limit);
        ResultsNewestFirst(rows);
        Some(RowsToResults(rows))
  }

  lemma SortedRoomRows(table: seq<Row>, roomId: int, limit: int)
    requires limit >= 0
    ensures SortedDesc(RoomRows(table, roomId, limit).value)
  {
    var all := Where(table, (x: Row) => x.roomId == roomId);
    SortDescSorted(all);
    PrefixSorted(SortDesc(all), limit);
  }

  /** The room query reads exactly the shard its room routes to. */
  lemma RoomOrdersReadsOneShard(tables: seq<seq<Row>>, tables': seq<seq<Row>>, numShards: int,
                                roomId: int, limit: int, health: nat -> ShardFault)
    requires |tables| == |tables'|
    requires var s := RangeShard(roomId, numShards); 0 <= s < |tables| ==> tables[s] == tables'[s]
    ensures RoomOrdersOneShard(tables, numShards, roomId, limit, health) == RoomOrdersOneShard(tables', numShards, roomId, limit, health)
  {
  }

  /** Save and room query route alike: a saved record is found by its room. */
  lemma SaveThenQueryRoom(tables: seq<seq<Row>>, numShards: int, r: CouponResult, id: int, now: Time, limit: int,
                          health: nat -> ShardFault)
    requires 0 <= RangeShard(r.roomId, numShards) < |tables|
    requires health(RangeShard(r.roomId, numShards)) == Healthy
    requires limit > |tables[RangeShard(r.roomId, numShards)]|
    ensures var s := RangeShard(r.roomId, numShards);
      var row := NewRow(id, r, r.failReason, now);
      var after := tables[s := tables[s] + [row]];
      && RoomOrdersOneShard(after, numShards, r.roomId, limit, health).Some?
      && RowToCouponResult(row) in RoomOrdersOneShard(after, numShards, r.roomId, limit, health).value
  {
    var s := RangeShard(r.roomId, numShards);
    var row := NewRow(id, r, r.failReason, now);
    var after := tables[s := tables[s] + [row]];
    assert row in after[s];
  }

  class RangeShardingStrategy {
    const numShards: int
    const db: ShardDatabases

    constructor (numShards: int, db: ShardDatabases)
      ensures this.numShards == numShards && this.db == db
    {
      this.numShards := numShards;
      this.db := db;
    }

    /** `save_coupon_result`: one INSERT on the shard of the record's room, or
        no change at all. */
    method Save(r: CouponResult, now: Time, fault: ShardFault) returns (o: SaveOutcome)
      requires db.Valid()
      modifies db
      ensures db.Valid() && |db.tables| == |old(db.tables)|
      ensures o == RangeSaveOutcome(numShards, |old(db.tables)|, r.roomId, fault)
      ensures Committed(old(db.tables), old(db.nextIds), db.tables, db.nextIds, RangeShard(r.roomId, numShards),
                        r, r.failReason, now, o == Saved)
    {
      o := RangeSaveOutcome(numShards, |db.tables|, r.roomId, fault);
      if o == Saved {
        db.Insert(RangeShard(r.roomId, numShards), r, r.failReason, now);
      }
    }

    /** `query_user_coupons` */
    method QueryUserCoupons(userId: int, health: nat -> ShardFault) returns (res: Option<seq<CouponResult>>)
      ensures res == UserCouponsAll(db.tables, numShards, userId, health)
    {
      var all := FanOutQuery(db, ShardCount(numShards), health, UserSelect(userId));
      res := if all.Some? then Some(RowsToResults(all.value)) else None;
    }

    /** `query_room_orders` */
    method QueryRoomOrders(roomId: int, limit: int, health: nat -> ShardFault) returns (res: Option<seq<CouponResult>>)
      ensures res == RoomOrdersOneShard(db.tables, numShards, roomId, limit, health)
    {
      res := RoomOrdersOneShard(db.tables, numShards, roomId, limit, health);
    }

    /** `query_time_range_orders` */
    method QueryTimeRangeOrders(start: Time, end: Time, limit: int, health: nat -> ShardFault)
      returns (res: Option<seq<CouponResult>>)
      ensures res == TimeRangeOrders(db.tables, numShards, start, end, limit, health)
    {
      var all := FanOutQuery(db, ShardCount(numShards), health, TimeRangeSelect(start, end, limit));
      res := if all.Some? then Some(MergeNewestFirst(all.value, limit)) else None;
    }

    /** `get_shard_stats`, labelled `shard_{i}` */
    method GetShardStats(health: nat -> ShardFault) returns (res: Option<seq<ShardingStats>>)
      ensures res == ShardStats(db.tables, numShards, "shard_", health)
    {
      res := FanOutQuery(db, ShardCount(numShards), health, StatsSelect("shard_"));
    }

    /** `get_total_records` */
    method GetTotalRecords(health: nat -> ShardFault) returns (res: Option<int>)
      ensures res.None? <==> ShardStats(db.tables, numShards, "shard_", health).None?
      ensures res.Some? ==> res.value == TotalRecords(ShardStats(db.tables, numShards, "shard_", health).value)
      ensures res.Some? ==>
        ShardCount(numShards) <= |db.tables| && res.value == RowsCounted(db.tables, ShardCount(numShards), health)
    {
      var stats := GetShardStats(health);
      if stats.Some? {
        TotalRecordsCounted(db.tables, ShardCount(numShards), "shard_", health);
      }
      res := if stats.Some? then Some(TotalRecords(stats.value)) else None;
    }

    /** `bulk_save`: saves the records one by one and counts the successes;
        the first save that raises ends the batch, with the saves before it
        kept. */
    method BulkSave(records: seq<CouponResult>, now: Time, faults: nat -> ShardFault) returns (res: Option<nat>)
      requires db.Valid()
      modifies db
      ensures db.Valid()
      ensures (res, db.tables, db.nextIds) == BulkRun(RangeSaver(numShards), old(db.tables), old(db.nextIds), records, now, faults, 0, 0)
    {
      ghost var tables0, ids0 := db.tables, db.nextIds;
      var count := 0;
      var i := 0;
      while i < |records|
        invariant 0 <= i <= |records|
        invariant db.Valid()
        invariant BulkRun(RangeSaver(numShards), db.tables, db.nextIds, records, now, faults, i, count)
               == BulkRun(RangeSaver(numShards), tables0, ids0, records, now, faults, 0, 0)
      {
        var o := Save(records[i], now, faults(i));
        if o == Raised {
          return None;
        }
        if o == Saved {
          count := count + 1;
        }
        i := i + 1;
      }
      res := Some(count);
    }

    function StrategyName(): (name: string)
      ensures name == "Range Partitioning (by room_id)"
    {
      "Range Partitioning (by room_id)"
    }
  }

  /** How `save_coupon_result` places and ends each save of a batch. */
  function RangeSaver(numShards: int): Saver
  {
    Saver((r: CouponResult) => RangeShard(r.roomId, numShards),
          (r: CouponResult) => r.failReason,
          (n: nat, r: CouponResult, f: ShardFault) => RangeSaveOutcome(numShards, n, r.roomId, f))
  }

  /** A range save that returns True wrote to a configured shard. */
  lemma RangeSaverRoutes(numShards: int)
    ensures Routes(RangeSaver(numShards))
  {
  }
}
