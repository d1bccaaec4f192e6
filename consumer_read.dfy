/**
 * The read-path persistence consumer: it saves successful grabs through the
 * fixed hash strategy, invalidates the user's cached coupon list after a
 * successful write, and acknowledges everything it understands, so a
 * message is never requeued.
 */
module ReadConsumer {
  import opened Common
  import opened Events
  import opened KeyValue
  import opened ShardStore
  import opened HashStrategy

  const COUPONS_PREFIX: string := "user:coupons:"

  /** Where handling a message goes before any write: finished with an
      action, or a record to save and the cache key to drop afterwards. */
  datatype Plan = Finish(action: QueueAction) | Persist(record: CouponResult, cacheKey: string)

  /** A decoded `coupon_grab` message whose `success` is present. */
  predicate IsGrab(d: Delivery)
  {
    Announced(d) && d.ev.eventType.value == COUPON_GRAB && d.ev.success.Some?
  }

  /** `process_event` up to the save. */
  function ReadPlan(d: Delivery): (p: Plan)
    ensures !Announced(d) ==> p == Finish(Nack(false))
    ensures p.Persist? <==> IsGrab(d) && d.ev.success.value.truthy && GrabRecord(d.ev).Some?
    ensures p.Persist? ==> p.record == GrabRecord(d.ev).value && p.cacheKey == UserKey(COUPONS_PREFIX, d.ev.userId.value)
    ensures IsGrab(d) && d.ev.success.value.truthy && GrabRecord(d.ev).None? ==> p == Finish(Nack(false))
    ensures IsGrab(d) && !d.ev.success.value.truthy ==> p == Finish(Ack)
    ensures Announced(d) && d.ev.eventType.value == COUPON_GRAB && d.ev.success.None? ==> p == Finish(Nack(false))
    ensures Announced(d) && d.ev.eventType.value == LIKE ==> p == Finish(Ack)
    ensures Announced(d) && d.ev.eventType.value != COUPON_GRAB && d.ev.eventType.value != LIKE ==> p == Finish(NoAction)
  {
    if !Announced(d) then Finish(Nack(false))
    else
      var ev := d.ev;
      if ev.eventType.value == COUPON_GRAB then
        if ev.success.None? then Finish(Nack(false))
        else if !ev.success.value.truthy then Finish(Ack)
        else match GrabRecord(ev)
          case None => Finish(Nack(false))
          case Some(r) => Persist(r, UserKey(COUPONS_PREFIX, ev.userId.value))
      else if ev.eventType.value == LIKE then Finish(Ack)
      else Finish(NoAction)
  }

  /** The action once the save has run: a failed save is acknowledged and
      dropped, and only an exception escaping the save rejects the message. */
  function AfterSave(o: SaveOutcome): (a: QueueAction)
    ensures a == Ack <==> o != Raised
    ensures a != Ack ==> a == Nack(false)
  {
    if o == Raised then Nack(false) else Ack
  }

  /** `update_redis_cache` succeeds unless a key it reads is missing or the
      DEL cannot reach the server; every exception is caught. */
  function CacheUpdated(ev: Event, unreachable: bool): (ok: bool)
    ensures ok ==> ev.userId.Some? && ev.eventType.Some?
  {
    ev.userId.Some? && ev.eventType.Some?
    && (ev.eventType.value == COUPON_GRAB ==> ev.success.Some? && (ev.success.value.truthy ==> !unreachable))
  }

  class ReadConsumer {
    const strategy: HashShardingStrategy
    const redis: RedisStore<string>
    var processed: nat

    /** `FixedHashStrategy(num_shards=4)` over the given shards. */
    constructor (db: ShardDatabases, redis: RedisStore<string>)
      ensures strategy.fixed && strategy.numShards == 4 && strategy.db == db
      ensures this.redis == redis && processed == 0
    {
      strategy := new HashShardingStrategy(true, 4, db);
      this.redis := redis;
      processed := 0;
    }

    /** `update_redis_cache`: for a successful grab, DEL `user:coupons:{user_id}`. */
    method UpdateRedisCache(ev: Event, now: Time, unreachable: bool) returns (ok: bool)
      modifies redis
      ensures ok == CacheUpdated(ev, unreachable)
      ensures redis.db ==
        if ok && ev.eventType.value == COUPON_GRAB && ev.success.value.truthy
        then Apply(old(redis.db), Del(UserKey(COUPONS_PREFIX, ev.userId.value)), now).0
        else old(redis.db)
    {
      if ev.userId.None? || ev.eventType.None? {
        return false;
      }
      if ev.eventType.value == COUPON_GRAB {
        if ev.success.None? {
          return false;
        }
        if ev.success.value.truthy {
          if unreachable {
            return false;
          }
          var _ := redis.Exec(Del(UserKey(COUPONS_PREFIX, ev.userId.value)), now);
        }
      }
      ok := true;
    }

    /** `process_event` */
    method Process(d: Delivery, now: Time, fault: ShardFault, redisUnreachable: bool) returns (action: QueueAction)
      requires strategy.db.Valid()
      modifies this, strategy.db, redis
      ensures strategy.db.Valid()
      ensures ReadPlan(d).Finish? ==>
        && action == ReadPlan(d).action
        && strategy.db.tables == old(strategy.db.tables) && strategy.db.nextIds == old(strategy.db.nextIds)
        && redis.db == old(redis.db) && processed == old(processed)
      ensures ReadPlan(d).Persist? ==>
        var p := ReadPlan(d);
        var o := SaveOutcomeOf(strategy.fixed, strategy.numShards, |old(strategy.db.tables)|, p.record.userId, fault);
        && action == AfterSave(o)
        && Committed(old(strategy.db.tables), old(strategy.db.nextIds), strategy.db.tables, strategy.db.nextIds,
                     SaveShard(strategy.fixed, p.record.userId, strategy.numShards), p.record,
                     StoredFailReason(strategy.fixed, p.record.failReason), now, o == Saved)
        && redis.db == (if o == Saved && !redisUnreachable then Apply(old(redis.db), Del(p.cacheKey), now).0 else old(redis.db))
        && processed == old(processed) + (if o == Saved then 1 else 0)
    {
      var plan := ReadPlan(d);
      match plan
      case Finish(a) =>
        action := a;
      case Persist(record, _) =>
        var o := strategy.Save(record, now, fault);
        if o == Saved {
          var _ := UpdateRedisCache(d.ev, now, redisUnreachable);
          processed := processed + 1;
        }
        action := AfterSave(o);
    }
  }

  /** This consumer never asks for redelivery. */
  lemma ReadNeverRequeues(d: Delivery, o: SaveOutcome)
    ensures ReadPlan(d).Finish? ==> ReadPlan(d).action != Nack(true)
    ensures AfterSave(o) != Nack(true)
  {
  }

  /** Only a successful grab reaches the store; failed grabs, likes and
      other event types are settled without a write. */
  lemma ReadWritesOnlySuccessfulGrabs(d: Delivery)
    requires ReadPlan(d).Persist?
    ensures d.Decoded? && d.ev.eventType == Some(COUPON_GRAB) && d.ev.success.value.truthy
    ensures ReadPlan(d).record.grabStatus == 1
  {
  }
}
