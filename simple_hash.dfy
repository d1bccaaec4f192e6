/**
 * `SimpleHashStrategy`, the in-memory demonstration strategy: a dict from
 * shard id to a list of records. Its keys are always 0 .. n-1 inserted in
 * order, so the dict is a sequence indexed by shard id.
 */
module SimpleHash {
  import opened Common
  import opened Routing
  import opened ShardStore

  /** The loop of `extend`s over `self.shards.items()`: every shard's matches,
      concatenated in shard order. */
  function Gather(shards: seq<seq<CouponResult>>, p: CouponResult -> bool): (out: seq<CouponResult>)
    ensures forall x :: x in out <==> exists i :: 0 <= i < |shards| && x in shards[i] && p(x)
  {
    if shards == [] then []
    else
      var k := |shards| - 1;
      var prev := Gather(shards[..k], p);
      assert forall i :: 0 <= i < k ==> shards[..k][i] == shards[i];
      prev + Where(shards[k], p)
  }

  function RoomIs(roomId: int): CouponResult -> bool
  {
    (x: CouponResult) => x.roomId == roomId
  }

  /** `r.grab_time and start_time <= r.grab_time <= end_time` */
  function InWindow(start: Time, end: Time): CouponResult -> bool
  {
    (x: CouponResult) => x.grabTime.Some? && start <= x.grabTime.value <= end
  }

  /** The entry reported for one in-memory shard. */
  function SimpleStatsEntry(shard: nat, records: seq<CouponResult>): ShardingStats
  {
    ShardingStats("shard_" + NatText(shard), |records|, 10.5, 45.0, 30.0, 50)
  }

  /** The number of records held by all shards. */
  function Held(shards: seq<seq<CouponResult>>): nat
  {
    if shards == [] then 0 else Held(shards[..|shards| - 1]) + |shards[|shards| - 1]|
  }

  /** `self.shards[shard_id].append(r)` */
  function SimpleAppend(shards: seq<seq<CouponResult>>, s: int, r: CouponResult): (after: seq<seq<CouponResult>>)
    requires 0 <= s < |shards|
    ensures |after| == |shards|
    ensures after[s] == shards[s] + [r]
    ensures forall i :: 0 <= i < |shards| && i != s ==> after[i] == shards[i]
  {
    shards[s := shards[s] + [r]]
  }

  /** How `save_coupon_result` ends: zero shards raise ZeroDivisionError, and
      a shard id that is not a key (before `initialize`, or a negative shard
      count) raises KeyError. */
  function SimpleSaveOutcome(numShards: int, shardCount: nat, userId: int): (o: SaveOutcome)
    ensures o != NotSaved
    ensures o == Saved <==> numShards != 0 && 0 <= HashShard(userId, numShards) < shardCount
  {
    if numShards != 0 && 0 <= HashShard(userId, numShards) < shardCount then Saved else Raised
  }

  /** The outcome of each save of a batch, in order. */
  function SimpleBulkOutcomes(numShards: int, shardCount: nat, records: seq<CouponResult>): (os: seq<SaveOutcome>)
    ensures |os| == |records|
    ensures forall i :: 0 <= i < |records| ==> os[i] == SimpleSaveOutcome(numShards, shardCount, records[i].userId)
  {
    seq(|records|, i requires 0 <= i < |records| => SimpleSaveOutcome(numShards, shardCount, records[i].userId))
  }

  /** The `bulk_save` loop from record `i` on, with `count` successes so far:
      the count it returns (`None` once a save raises) and the shards it
      leaves. */
  function SimpleBulkRun(numShards: int, shards: seq<seq<CouponResult>>, records: seq<CouponResult>, i: nat, count: nat)
    : (out: (Option<nat>, seq<seq<CouponResult>>))
    ensures |out.1| == |shards|
    decreases |records| - i
  {
    if i >= |records| then (Some(count), shards)
    else if SimpleSaveOutcome(numShards, |shards|, records[i].userId) == Raised then (None, shards)
    else
      var r := records[i];
      SimpleBulkRun(numShards, SimpleAppend(shards, HashShard(r.userId, numShards), r), records, i + 1, count + 1)
  }

  /** The count the batch returns depends on the outcomes alone. */
  lemma {:induction false} SimpleBulkRunCountFrom(numShards: int, shards: seq<seq<CouponResult>>, records: seq<CouponResult>,
                                                  i: nat, count: nat)
    ensures SimpleBulkRun(numShards, shards, records, i, count).0
         == CountFrom(SimpleBulkOutcomes(numShards, |shards|, records), i, count)
    decreases |records| - i
  {
    if i < |records| && SimpleSaveOutcome(numShards, |shards|, records[i].userId) != Raised {
      var r := records[i];
      var after := SimpleAppend(shards, HashShard(r.userId, numShards), r);
      SimpleBulkRunCountFrom(numShards, after, records, i + 1, count + 1);
      assert SimpleBulkOutcomes(numShards, |after|, records) == SimpleBulkOutcomes(numShards, |shards|, records);
    }
  }

  /** `bulk_save` returns the number of saves, or raises exactly when one of
      them raises. */
  lemma SimpleBulkCounts(numShards: int, shards: seq<seq<CouponResult>>, records: seq<CouponResult>)
    ensures SimpleBulkRun(numShards, shards, records, 0, 0).0 == CountSaved(SimpleBulkOutcomes(numShards, |shards|, records))
  {
    SimpleBulkRunCountFrom(numShards, shards, records, 0, 0);
    CountFromStart(SimpleBulkOutcomes(numShards, |shards|, records));
  }

  /** The count the batch returns is the number of records it added: every
      record of a batch that does not raise is stored. */
  lemma {:induction false} SimpleBulkAddsRecords(numShards: int, shards: seq<seq<CouponResult>>, records: seq<CouponResult>,
                                                 i: nat, count: nat)
    requires i <= |records|
    ensures var out := SimpleBulkRun(numShards, shards, records, i, count);
      out.0.Some? ==> out.0.value == count + (|records| - i) && Held(out.1) == Held(shards) + (|records| - i)
    decreases |records| - i
  {
    if i < |records| && SimpleSaveOutcome(numShards, |shards|, records[i].userId) != Raised {
      var r := records[i];
      var s := HashShard(r.userId, numShards);
      HeldAfterAppend(shards, s, r);
      SimpleBulkAddsRecords(numShards, SimpleAppend(shards, s, r), records, i + 1, count + 1);
    }
  }

  class SimpleHashStrategy {
    const numShards: int
    var shards: seq<seq<CouponResult>>

    /** The dict is empty until `initialize`, then holds one list per shard. */
    ghost predicate Valid()
      reads this
    {
      shards == [] || |shards| == ShardCount(numShards)
    }

    constructor (numShards: int)
      ensures Valid()
      ensures this.numShards == numShards && shards == []
    {
      this.numShards := numShards;
      shards := [];
    }

    /** `initialize`: `num_shards` empty lists keyed 0 .. n-1. */
    method Initialize() returns (ok: bool)
      modifies this
      ensures Valid()
      ensures ok
      ensures |shards| == ShardCount(numShards)
      ensures forall i :: 0 <= i < |shards| ==> shards[i] == []
    {
      shards := seq(ShardCount(numShards), _ => []);
      ok := true;
    }

    /** `save_coupon_result`: appends the record to its shard's list. */
    method Save(r: CouponResult) returns (o: SaveOutcome)
      requires Valid()
      modifies this
      ensures Valid()
      ensures o == SimpleSaveOutcome(numShards, |old(shards)|, r.userId)
      ensures shards == if o == Saved then SimpleAppend(old(shards), HashShard(r.userId, numShards), r) else old(shards)
      ensures o == Saved ==> r in QueryUserCoupons(r.userId).value
    {
      o := SimpleSaveOutcome(numShards, |shards|, r.userId);
      if o == Saved {
        shards := SimpleAppend(shards, HashShard(r.userId, numShards), r);
      }
    }

    /** `query_user_coupons`: the records of the user in the user's shard. */
    function QueryUserCoupons(userId: int): (res: Option<seq<CouponResult>>)
      reads this
      ensures res.Some? <==> numShards != 0 && 0 <= HashShard(userId, numShards) < |shards|
      ensures res.Some? ==> forall x :: x in res.value ==> x.userId == userId
      ensures res.Some? ==> forall x :: x in shards[HashShard(userId, numShards)] && x.userId == userId ==> x in res.value
    {
      if numShards != 0 && 0 <= HashShard(userId, numShards) < |shards|
      then Some(Where(shards[HashShard(userId, numShards)], (x: CouponResult) => x.userId == userId))
      else None
    }

    /** `query_room_orders`: every shard's records of the room, in shard
        order, cut to `limit`. */
    method QueryRoomOrders(roomId: int, limit: int) returns (res: seq<CouponResult>)
      ensures res == Take(Gather(shards, RoomIs(roomId)), limit)
      ensures limit >= 0 ==> |res| <= limit
      ensures forall x :: x in res ==> x.roomId == roomId
    {
      var all := GatherLoop(RoomIs(roomId));
      res := Take(all, limit);
    }

    /** `query_time_range_orders`: every shard's records whose `grab_time` is
        set and lies in [start, end], in shard order, cut to `limit`. */
    method QueryTimeRangeOrders(start: Time, end: Time, limit: int) returns (res: seq<CouponResult>)
      ensures res == Take(Gather(shards, InWindow(start, end)), limit)
      ensures limit >= 0 ==> |res| <= limit
      ensures forall x :: x in res ==> x.grabTime.Some? && start <= x.grabTime.value <= end
    {
      var all := GatherLoop(InWindow(start, end));
      res := Take(all, limit);
    }

    /** The shard loop both queries run. */
    method GatherLoop(p: CouponResult -> bool) returns (all: seq<CouponResult>)
      ensures all == Gather(shards, p)
    {
      all := [];
      var i := 0;
      while i < |shards|
        invariant 0 <= i <= |shards|
        invariant all == Gather(shards[..i], p)
      {
        assert shards[..i + 1][..i] == shards[..i];
        all := all + Where(shards[i], p);
        i := i + 1;
      }
      assert shards[..i] == shards;
    }

    /** `get_shard_stats`: one entry per shard, its list length as the count. */
    method GetShardStats() returns (stats: seq<ShardingStats>)
      ensures |stats| == |shards|
      ensures forall i :: 0 <= i < |shards| ==> stats[i] == SimpleStatsEntry(i, shards[i])
    {
      stats := [];
      var i := 0;
      while i < |shards|
        invariant 0 <= i <= |shards|
        invariant |stats| == i
        invariant forall j :: 0 <= j < i ==> stats[j] == SimpleStatsEntry(j, shards[j])
      {
        stats := stats + [SimpleStatsEntry(i, shards[i])];
        i := i + 1;
      }
    }

    /** `get_total_records`: every stored record is counted once. */
    method GetTotalRecords() returns (total: int)
      ensures total == Held(shards)
    {
      var stats := GetShardStats();
      StatsCountHeld(shards, stats);
      total := TotalRecords(stats);
    }

    /** `bulk_save`: appends the records one by one and counts them; the
        first save that raises ends the batch. */
    method BulkSave(records: seq<CouponResult>) returns (res: Option<nat>)
      requires Valid()
      modifies this
      ensures Valid()
      ensures (res, shards) == SimpleBulkRun(numShards, old(shards), records, 0, 0)
    {
      ghost var shards0 := shards;
      var count := 0;
      var i := 0;
      while i < |records|
        invariant 0 <= i <= |records|
        invariant Valid()
        invariant SimpleBulkRun(numShards, shards, records, i, count) == SimpleBulkRun(numShards, shards0, records, 0, 0)
      {
        var o := Save(records[i]);
        if o == Raised {
          return None;
        }
        count := count + 1;
        i := i + 1;
      }
      res := Some(count);
    }

    function StrategyName(): (name: string)
      ensures name == "Hash Partitioning (Simple Demo)"
    {
      "Hash Partitioning (Simple Demo)"
    }
  }

  /** The stats' record counts add up to the records held. */
  lemma {:induction false} StatsCountHeld(shards: seq<seq<CouponResult>>, stats: seq<ShardingStats>)
    requires |stats| == |shards|
    requires forall i :: 0 <= i < |shards| ==> stats[i] == SimpleStatsEntry(i, shards[i])
    ensures TotalRecords(stats) == Held(shards)
    decreases |shards|
  {
    if shards != [] {
      var k := |shards| - 1;
      StatsCountHeld(shards[..k], stats[..k]);
      assert stats == stats[..k] + [stats[k]];
      TotalRecordsAppend(stats[..k], [stats[k]]);
    }
  }

  /** A save adds exactly one record to the total. */
  lemma {:induction false} HeldAfterAppend(shards: seq<seq<CouponResult>>, s: nat, r: CouponResult)
    requires s < |shards|
    ensures Held(SimpleAppend(shards, s, r)) == Held(shards) + 1
    decreases |shards|
  {
    var k := |shards| - 1;
    var after := shards[s := shards[s] + [r]];
    assert after[..k] == if s < k then shards[..k][s := shards[s] + [r]] else shards[..k];
    if s < k {
      HeldAfterAppend(shards[..k], s, r);
    }
  }
}
