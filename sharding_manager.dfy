/**
 * `ShardingManager`: holds one strategy, or none, and forwards every call to
 * it. Calling through a manager with no strategy raises ValueError, which
 * the operations report as `Raised` or `None` like any other exception.
 */
module Manager {
  import opened Common
  import opened Routing
  import opened ShardStore
  import opened SimpleHash
  import opened HashStrategy
  import opened RangeStrategy

  /** The strategies a manager can hold. */
  datatype Strategy =
    | Simple(simple: SimpleHashStrategy)
    | Hash(hash: HashShardingStrategy)
    | Range(range: RangeShardingStrategy)

  /** What the strategy's state lives in. */
  function Footprint(st: Strategy): set<object>
  {
    match st
    case Simple(s) => {s}
    case Hash(h) => {h.db}
    case Range(g) => {g.db}
  }

  ghost predicate StrategyValid(st: Strategy)
    reads Footprint(st)
  {
    match st
    case Simple(s) => s.Valid()
    case Hash(h) => h.db.Valid()
    case Range(g) => g.db.Valid()
  }

  class ShardingManager {
    var strategy: Option<Strategy>

    ghost predicate Valid()
      reads this, if strategy.Some? then Footprint(strategy.value) else {}
    {
      strategy.Some? ==> StrategyValid(strategy.value)
    }

    /** `ShardingManager(strategy)` stores the strategy without initialising it. */
    constructor (strategy: Option<Strategy>)
      ensures this.strategy == strategy
    {
      this.strategy := strategy;
    }

    /** `set_strategy`: stores the strategy, then calls its `initialize`,
        whose result is ignored. Only the in-memory strategy's `initialize`
        changes modelled state: it empties its shard lists. */
    method SetStrategy(st: Strategy)
      requires StrategyValid(st)
      modifies this, Footprint(st)
      ensures strategy == Some(st)
      ensures Valid()
      ensures st.Simple? ==> |st.simple.shards| == ShardCount(st.simple.numShards)
      ensures st.Simple? ==> forall i :: 0 <= i < |st.simple.shards| ==> st.simple.shards[i] == []
      ensures !st.Simple? ==> forall o :: o in Footprint(st) ==> unchanged(o)
    {
      strategy := Some(st);
      if st.Simple? {
        var _ := st.simple.Initialize();
      }
    }

    /** `get_strategy`: the strategy, or ValueError when none is set. */
    function GetStrategy(): (res: Option<Strategy>)
      reads this
      ensures res.None? <==> strategy.None?
      ensures res.Some? ==> res == strategy
    {
      strategy
    }

    /** `save_coupon_result` */
    method Save(r: CouponResult, now: Time, fault: ShardFault) returns (o: SaveOutcome)
      requires Valid()
      modifies if strategy.Some? then Footprint(strategy.value) else {}
      ensures Valid()
      ensures strategy.None? ==> o == Raised
      ensures strategy.Some? && strategy.value.Simple? ==>
        var s := strategy.value.simple;
        && o == SimpleSaveOutcome(s.numShards, |old(s.shards)|, r.userId)
        && s.shards == if o == Saved then SimpleAppend(old(s.shards), HashShard(r.userId, s.numShards), r) else old(s.shards)
      ensures strategy.Some? && strategy.value.Hash? ==>
        var h := strategy.value.hash;
        && o == SaveOutcomeOf(h.fixed, h.numShards, |old(h.db.tables)|, r.userId, fault)
        && Committed(old(h.db.tables), old(h.db.nextIds), h.db.tables, h.db.nextIds,
                     SaveShard(h.fixed, r.userId, h.numShards), r, StoredFailReason(h.fixed, r.failReason), now, o == Saved)
      ensures strategy.Some? && strategy.value.Range? ==>
        var g := strategy.value.range;
        && o == RangeSaveOutcome(g.numShards, |old(g.db.tables)|, r.roomId, fault)
        && Committed(old(g.db.tables), old(g.db.nextIds), g.db.tables, g.db.nextIds,
                     RangeShard(r.roomId, g.numShards), r, r.failReason, now, o == Saved)
    {
      match strategy
      case None => o := Raised;
      case Some(st) =>
        match st
        case Simple(s) => o := s.Save(r);
        case Hash(h) => o := h.Save(r, now, fault);
        case Range(g) => o := g.Save(r, now, fault);
    }

    /** `query_user_coupons` */
    method QueryUserCoupons(userId: int, health: nat -> ShardFault) returns (res: Option<seq<CouponResult>>)
      ensures strategy.None? ==> res.None?
      ensures strategy.Some? && strategy.value.Simple? ==> res == strategy.value.simple.QueryUserCoupons(userId)
      ensures strategy.Some? && strategy.value.Hash? ==>
        var h := strategy.value.hash;
        res == UserCoupons(h.fixed, h.db.tables, h.numShards, userId, health)
      ensures strategy.Some? && strategy.value.Range? ==>
        var g := strategy.value.range;
        res == UserCouponsAll(g.db.tables, g.numShards, userId, health)
    {
      match strategy
      case None => res := None;
      case Some(st) =>
        match st
        case Simple(s) => res := s.QueryUserCoupons(userId);
        case Hash(h) => res := UserCoupons(h.fixed, h.db.tables, h.numShards, userId, health);
        case Range(g) => res := g.QueryUserCoupons(userId, health);
    }

    /** `query_room_orders` */
    method QueryRoomOrders(roomId: int, limit: int, health: nat -> ShardFault) returns (res: Option<seq<CouponResult>>)
      ensures strategy.None? ==> res.None?
      ensures strategy.Some? && strategy.value.Simple? ==>
        res == Some(Take(Gather(strategy.value.simple.shards, RoomIs(roomId)), limit))
      ensures strategy.Some? && strategy.value.Hash? ==>
        var h := strategy.value.hash;
        res == RoomOrders(h.db.tables, h.numShards, roomId, limit, health)
      ensures strategy.Some? && strategy.value.Range? ==>
        var g := strategy.value.range;
        res == RoomOrdersOneShard(g.db.tables, g.numShards, roomId, limit, health)
    {
      match strategy
      case None => res := None;
      case Some(st) =>
        match st
        case Simple(s) =>
          var rs := s.QueryRoomOrders(roomId, limit);
          res := Some(rs);
        case Hash(h) => res := h.QueryRoomOrders(roomId, limit, health);
        case Range(g) => res := RoomOrdersOneShard(g.db.tables, g.numShards, roomId, limit, health);
    }

    /** `query_time_range_orders` */
    method QueryTimeRangeOrders(start: Time, end: Time, limit: int, health: nat -> ShardFault)
      returns (res: Option<seq<CouponResult>>)
      ensures strategy.None? ==> res.None?
      ensures strategy.Some? && strategy.value.Simple? ==>
        res == Some(Take(Gather(strategy.value.simple.shards, InWindow(start, end)), limit))
      ensures strategy.Some? && strategy.value.Hash? ==>
        var h := strategy.value.hash;
        res == TimeRangeOrders(h.db.tables, h.numShards, start, end, limit, health)
      ensures strategy.Some? && strategy.value.Range? ==>
        var g := strategy.value.range;
        res == TimeRangeOrders(g.db.tables, g.numShards, start, end, limit, health)
    {
      match strategy
      case None => res := None;
      case Some(st) =>
        match st
        case Simple(s) =>
          var rs := s.QueryTimeRangeOrders(start, end, limit);
          res := Some(rs);
        case Hash(h) => res := h.QueryTimeRangeOrders(start, end, limit, health);
        case Range(g) => res := g.QueryTimeRangeOrders(start, end, limit, health);
    }

    /** `get_shard_stats` */
    method GetShardStats(health: nat -> ShardFault) returns (res: Option<seq<ShardingStats>>)
      ensures strategy.None? ==> res.None?
      ensures strategy.Some? && strategy.value.Simple? ==>
        var s := strategy.value.simple;
        && res.Some? && |res.value| == |s.shards|
        && forall i :: 0 <= i < |s.shards| ==> res.value[i] == SimpleStatsEntry(i, s.shards[i])
      ensures strategy.Some? && strategy.value.Hash? ==>
        var h := strategy.value.hash;
        res == ShardStats(h.db.tables, h.numShards, "aws_shard_", health)
      ensures strategy.Some? && strategy.value.Range? ==>
        var g := strategy.value.range;
        res == ShardStats(g.db.tables, g.numShards, "shard_", health)
    {
      match strategy
      case None => res := None;
      case Some(st) =>
        match st
        case Simple(s) =>
          var stats := s.GetShardStats();
          res := Some(stats);
        case Hash(h) => res := h.GetShardStats(health);
        case Range(g) => res := g.GetShardStats(health);
    }

    /** `get_strategy_name` */
    function StrategyName(): (res: Option<string>)
      reads this
      ensures res.None? <==> strategy.None?
      ensures strategy.Some? && strategy.value.Simple? ==> res == Some("Hash Partitioning (Simple Demo)")
      ensures strategy.Some? && strategy.value.Hash? ==> res == Some("Hash Partitioning (AWS RDS)")
      ensures strategy.Some? && strategy.value.Range? ==> res == Some("Range Partitioning (by room_id)")
    {
      match strategy
      case None => None
      case Some(st) =>
        match st
        case Simple(s) => Some(s.StrategyName())
        case Hash(h) => Some(h.StrategyName())
        case Range(g) => Some(g.StrategyName())
    }
  }
}
