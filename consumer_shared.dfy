/**
 * The write-path persistence consumer: each message first updates the
 * user's Redis counters and coupon list (a Redis failure there does not stop
 * persistence), then a successful grab is saved through the hash strategy.
 * A benchmark counter wraps at TARGET_REQUESTS.
 */
module SharedConsumer {
  import opened Common
  import opened Events
  import opened KeyValue
  import opened ShardStore
  import opened HashStrategy

  const TARGET_REQUESTS: nat := 2000
  const COUPON_LIST_TTL: nat := 7 * 24 * 3600

  /** The JSON document pushed onto `user:coupons:{user_id}`; a missing
      `coupon_id` or `room_id` is written as null (`None`). */
  datatype GrabNote = GrabNote(couponId: Option<Scalar>, roomId: Option<Scalar>, timestamp: Scalar, grabbedAt: Time)

  function AttemptsKey(u: Scalar): string { UserKey("user:attempts:", u) }
  function SuccessKey(u: Scalar): string { UserKey("user:success:", u) }
  function FailedKey(u: Scalar): string { UserKey("user:failed:", u) }
  function CouponsKey(u: Scalar): string { UserKey("user:coupons:", u) }
  function LikesKey(u: Scalar): string { UserKey("user:likes:", u) }

  /** The Redis commands `update_redis_cache` sends, in order, and whether an
      uncaught exception follows them (a key the code reads after the last
      command sent is missing, or the user id cannot be a dict key). */
  datatype Script = Script(cmds: seq<Cmd<GrabNote>>, thenRaises: bool)

  function CacheScript(ev: Event, now: Time): (s: Script)
    ensures ev.userId.None? || ev.eventType.None? ==> s == Script([], true)
    ensures ev.userId.Some? && ev.eventType == Some(LIKE) && ev.isTopLike.Some? && ev.isTopLike.value.truthy
              && !ev.userId.value.hashable ==>
      s == Script([IncrBy(LikesKey(ev.userId.value), 1)], true)
    ensures ev.userId.Some? && ev.eventType == Some(COUPON_GRAB) ==>
      |s.cmds| >= 1 && s.cmds[0] == IncrBy(AttemptsKey(ev.userId.value), 1)
    ensures ev.userId.Some? && ev.eventType == Some(COUPON_GRAB) && ev.success.Some? && ev.success.value.truthy ==>
      |s.cmds| >= 2 && s.cmds[1] == IncrBy(SuccessKey(ev.userId.value), 1)
    ensures ev.userId.Some? && ev.eventType == Some(COUPON_GRAB) && ev.success.Some? && !ev.success.value.truthy ==>
      s == Script([IncrBy(AttemptsKey(ev.userId.value), 1), IncrBy(FailedKey(ev.userId.value), 1)], false)
    ensures ev.userId.Some? && ev.eventType.Some? && ev.eventType.value != COUPON_GRAB && ev.eventType.value != LIKE ==>
      s == Script([], false)
  {
    if ev.userId.None? || ev.eventType.None? then Script([], true)
    else
      var u := ev.userId.value;
      if ev.eventType.value == COUPON_GRAB then
        var attempt := IncrBy(AttemptsKey(u), 1);
        if ev.success.None? then Script([attempt], true)
        else if ev.success.value.truthy then
          if ev.timestamp.None? then Script([attempt, IncrBy(SuccessKey(u), 1)], true)
          else Script([attempt, IncrBy(SuccessKey(u), 1),
                       LPush(CouponsKey(u), GrabNote(ev.couponId, ev.roomId, ev.timestamp.value, now)),
                       Expire(CouponsKey(u), COUPON_LIST_TTL)], false)
        else Script([attempt, IncrBy(FailedKey(u), 1)], false)
      else if ev.eventType.value == LIKE then
        var like := IncrBy(LikesKey(u), 1);
        if ev.isTopLike.None? || !ev.isTopLike.value.truthy then Script([like], false)
        else if ev.timestamp.None? || !u.hashable then Script([like], true)
        else Script([like, TopLikeAdd(u, ev.timestamp.value)], false)
      else Script([], false)
  }

  /** How `update_redis_cache` ends: True, False after a RedisError, or an
      exception it does not catch (a KeyError, or the TypeError of an
      unhashable user id as a dict key). */
  datatype CacheEnd = Updated | RedisFailed | Uncaught

  /** The server state and ending of one `update_redis_cache` call. */
  function CacheOutcome(db: Db<GrabNote>, ev: Event, now: Time, unreachable: nat -> bool): (out: (Db<GrabNote>, CacheEnd))
    ensures ev.userId.None? || ev.eventType.None? ==> out == (db, Uncaught)
    ensures ev.userId.Some? && ev.eventType.Some? && ev.eventType.value != COUPON_GRAB && ev.eventType.value != LIKE ==>
      out == (db, Updated)
    ensures unreachable(0) && out.1 != Uncaught ==> out.0 == db
  {
    var s := CacheScript(ev, now);
    var run := Run(db, s.cmds, now, unreachable, 0);
    (run.0, if run.1.FailedAt? then RedisFailed else if s.thenRaises then Uncaught else Updated)
  }

  /** A top like whose user id cannot be a dict key (a JSON list or object)
      raises TypeError while `{user_id: ...}` is built, after the like
      counter's INCR; `update_redis_cache` does not catch it, and `top_likes`
      is left as it was. */
  lemma UnhashableTopLikeRaises(db: Db<GrabNote>, ev: Event, now: Time, unreachable: nat -> bool)
    requires ev.userId.Some? && ev.eventType == Some(LIKE)
    requires ev.isTopLike.Some? && ev.isTopLike.value.truthy && !ev.userId.value.hashable
    ensures CacheOutcome(db, ev, now, unreachable).1 != Updated
    ensures !unreachable(0) && Apply(db, IncrBy(LikesKey(ev.userId.value), 1), now).1 != Error ==>
      CacheOutcome(db, ev, now, unreachable).1 == Uncaught
    ensures Current(CacheOutcome(db, ev, now, unreachable).0, TOP_LIKES, now) == Current(db, TOP_LIKES, now)
  {
    var cmds := CacheScript(ev, now).cmds;
    KeysDiffer("user:likes:", TOP_LIKES, 0, ev.userId.value.text, "");
    assert TOP_LIKES + "" == TOP_LIKES;
    RunStep(db, cmds, now, unreachable, 0);
    assert cmds[0..] == cmds;
  }

  /** A top like whose user id is hashable but which redis-py cannot encode
      (a JSON `null` or boolean), or whose timestamp it cannot encode, ends
      the update in a RedisError, and `top_likes` is left as it was: at most
      the like counter moved. */
  lemma RefusedTopLikeFails(db: Db<GrabNote>, ev: Event, now: Time, unreachable: nat -> bool)
    requires ev.userId.Some? && ev.eventType == Some(LIKE) && ev.userId.value.hashable
    requires ev.isTopLike.Some? && ev.isTopLike.value.truthy && ev.timestamp.Some?
    requires !ev.userId.value.encodable || !ev.timestamp.value.encodable
    ensures CacheOutcome(db, ev, now, unreachable).1 == RedisFailed
    ensures Current(CacheOutcome(db, ev, now, unreachable).0, TOP_LIKES, now) == Current(db, TOP_LIKES, now)
  {
    var cmds := CacheScript(ev, now).cmds;
    KeysDiffer("user:likes:", TOP_LIKES, 0, ev.userId.value.text, "");
    assert TOP_LIKES + "" == TOP_LIKES;
    RunStep(db, cmds, now, unreachable, 0);
    assert cmds[0..] == cmds;
  }

  /** A top like's update completes only when the user id can be a dict key,
      both values encode and Redis reads the timestamp as a float; `top_likes` then scores the user's id
      with it. */
  lemma TopLikeRecorded(db: Db<GrabNote>, ev: Event, now: Time, unreachable: nat -> bool)
    requires ev.userId.Some? && ev.eventType == Some(LIKE)
    requires ev.isTopLike.Some? && ev.isTopLike.value.truthy
    requires CacheOutcome(db, ev, now, unreachable).1 == Updated
    ensures ev.timestamp.Some? && ev.userId.value.hashable
    ensures ev.userId.value.encodable && ev.timestamp.value.encodable && ev.timestamp.value.asScore.Some?
    ensures var z := Current(CacheOutcome(db, ev, now, unreachable).0, TOP_LIKES, now);
      && z.Some? && z.value.ZSet? && ev.userId.value.text in z.value.scores
      && z.value.scores[ev.userId.value.text] == ev.timestamp.value.asScore.value
  {
    var cmds := CacheScript(ev, now).cmds;
    RunStep(db, cmds, now, unreachable, 0);
    assert cmds[0..] == cmds;
    var mid := Apply(db, cmds[0], now).0;
    RunStep(mid, cmds, now, unreachable, 1);
  }

  /** Where handling goes once the cache step has not raised: finished (and
      whether the benchmark counter ticks), or a record to save. */
  datatype Plan = Finish(action: QueueAction, ticks: bool) | Persist(record: CouponResult)

  function SharedPlan(d: Delivery): (p: Plan)
    ensures d.Undecodable? ==> p == Finish(Ack, false)
    ensures !d.Undecodable? && !Announced(d) ==> p == Finish(Nack(false), false)
    ensures p.Persist? <==>
      Announced(d) && d.ev.eventType.value == COUPON_GRAB && d.ev.success.Some? && d.ev.success.value.truthy
      && GrabRecord(d.ev).Some?
    ensures p.Persist? ==> p.record == GrabRecord(d.ev).value
    ensures Announced(d) && d.ev.eventType.value == COUPON_GRAB && d.ev.success.Some? && !d.ev.success.value.truthy ==>
      p == Finish(Ack, true)
    ensures Announced(d) && d.ev.eventType.value == LIKE ==> p == Finish(Ack, true)
    ensures Announced(d) && d.ev.eventType.value != COUPON_GRAB && d.ev.eventType.value != LIKE ==> p == Finish(NoAction, true)
    ensures p.Finish? && p.action != Ack && p.action != NoAction ==> p.action == Nack(false)
  {
    match d
    case Undecodable => Finish(Ack, false)
    case NotAnObject => Finish(Nack(false), false)
    case Decoded(ev) =>
      if !Announced(d) then Finish(Nack(false), false)
      else if ev.eventType.value == COUPON_GRAB then
        if ev.success.None? then Finish(Nack(false), false)
        else if !ev.success.value.truthy then Finish(Ack, true)
        else match GrabRecord(ev)
          case None => Finish(Nack(false), false)
          case Some(r) => Persist(r)
      else if ev.eventType.value == LIKE then Finish(Ack, true)
      else Finish(NoAction, true)
  }

  /** The action after the save: a failed save is rejected without requeue,
      and the counter ticks unless the save raised. */
  function AfterSave(o: SaveOutcome): (p: Plan)
    ensures p.Finish?
    ensures p.action == Ack <==> o == Saved
    ensures p.action != Ack ==> p.action == Nack(false)
    ensures p.ticks <==> o != Raised
  {
    if o == Saved then Finish(Ack, true) else Finish(Nack(false), o != Raised)
  }

  /** `benchmark_count += 1`, back to 0 on reaching TARGET_REQUESTS. */
  function Tick(count: nat): (c: nat)
    requires count < TARGET_REQUESTS
    ensures c < TARGET_REQUESTS
    ensures c == 0 <==> count == TARGET_REQUESTS - 1
  {
    if count + 1 == TARGET_REQUESTS then 0 else count + 1
  }

  class SharedConsumer {
    const strategy: HashShardingStrategy
    const redis: RedisStore<GrabNote>
    var processed: nat
    var benchmarkCount: nat

    ghost predicate Valid()
      reads this
    {
      benchmarkCount < TARGET_REQUESTS
    }

    /** `HashShardingStrategyAWS(num_shards=4)` over the given shards. */
    constructor (db: ShardDatabases, redis: RedisStore<GrabNote>)
      ensures Valid()
      ensures !strategy.fixed && strategy.numShards == 4 && strategy.db == db
      ensures this.redis == redis && processed == 0 && benchmarkCount == 0
    {
      strategy := new HashShardingStrategy(false, 4, db);
      this.redis := redis;
      processed := 0;
      benchmarkCount := 0;
    }

    /** One command; `false` when it cannot reach the server or the server
        replies with an error. */
    method Send(cmd: Cmd<GrabNote>, now: Time, unreachable: bool) returns (ok: bool)
      modifies redis
      ensures ok <==> !unreachable && Apply(old(redis.db), cmd, now).1 != Error
      ensures redis.db == if ok then Apply(old(redis.db), cmd, now).0 else old(redis.db)
    {
      if unreachable {
        return false;
      }
      var reply := redis.Exec(cmd, now);
      ok := reply != Error;
    }

    /** `update_redis_cache` */
    method UpdateRedisCache(ev: Event, now: Time, unreachable: nat -> bool) returns (end: CacheEnd)
      modifies redis
      ensures (redis.db, end) == CacheOutcome(old(redis.db), ev, now, unreachable)
    {
      if ev.userId.None? || ev.eventType.None? {
        return Uncaught;
      }
      if ev.eventType.value == COUPON_GRAB {
        end := UpdateGrabCounters(ev, now, unreachable);
      } else if ev.eventType.value == LIKE {
        end := UpdateLikeCounters(ev, now, unreachable);
      } else {
        end := Updated;
      }
    }

    /** The `coupon_grab` branch of `update_redis_cache`. */
    method UpdateGrabCounters(ev: Event, now: Time, unreachable: nat -> bool) returns (end: CacheEnd)
      requires ev.userId.Some? && ev.eventType == Some(COUPON_GRAB)
      modifies redis
      ensures (redis.db, end) == CacheOutcome(old(redis.db), ev, now, unreachable)
    {
      var u := ev.userId.value;
      ghost var cmds := CacheScript(ev, now).cmds;
      assert cmds[0..] == cmds;
      RunStep(redis.db, cmds, now, unreachable, 0);
      var ok := Send(IncrBy(AttemptsKey(u), 1), now, unreachable(0));
      if !ok { return RedisFailed; }
      if ev.success.None? {
        assert cmds[1..] == [];
        return Uncaught;
      }
      if ev.success.value.truthy {
        RunStep(redis.db, cmds, now, unreachable, 1);
        ok := Send(IncrBy(SuccessKey(u), 1), now, unreachable(1));
        if !ok { return RedisFailed; }
        if ev.timestamp.None? {
          assert cmds[2..] == [];
          return Uncaught;
        }
        RunStep(redis.db, cmds, now, unreachable, 2);
        ok := Send(LPush(CouponsKey(u), GrabNote(ev.couponId, ev.roomId, ev.timestamp.value, now)), now, unreachable(2));
        if !ok { return RedisFailed; }
        RunStep(redis.db, cmds, now, unreachable, 3);
        ok := Send(Expire(CouponsKey(u), COUPON_LIST_TTL), now, unreachable(3));
        if !ok { return RedisFailed; }
        assert cmds[4..] == [];
      } else {
        RunStep(redis.db, cmds, now, unreachable, 1);
        ok := Send(IncrBy(FailedKey(u), 1), now, unreachable(1));
        if !ok { return RedisFailed; }
        assert cmds[2..] == [];
      }
      end := Updated;
    }

    /** The `like` branch of `update_redis_cache`. */
    method UpdateLikeCounters(ev: Event, now: Time, unreachable: nat -> bool) returns (end: CacheEnd)
      requires ev.userId.Some? && ev.eventType == Some(LIKE)
      modifies redis
      ensures (redis.db, end) == CacheOutcome(old(redis.db), ev, now, unreachable)
    {
      var u := ev.userId.value;
      ghost var cmds := CacheScript(ev, now).cmds;
      assert cmds[0..] == cmds;
      RunStep(redis.db, cmds, now, unreachable, 0);
      var ok := Send(IncrBy(LikesKey(u), 1), now, unreachable(0));
      if !ok { return RedisFailed; }
      if ev.isTopLike.Some? && ev.isTopLike.value.truthy {
        if ev.timestamp.None? || !u.hashable {
          assert cmds[1..] == [];
          return Uncaught;
        }
        RunStep(redis.db, cmds, now, unreachable, 1);
        ok := Send(TopLikeAdd(u, ev.timestamp.value), now, unreachable(1));
        if !ok { return RedisFailed; }
        assert cmds[2..] == [];
      } else {
        assert cmds[1..] == [];
      }
      end := Updated;
    }

    /** `process_event` */
    method Process(d: Delivery, now: Time, fault: ShardFault, unreachable: nat -> bool) returns (action: QueueAction)
      requires Valid() && strategy.db.Valid()
      modifies this, strategy.db, redis
      ensures Valid() && strategy.db.Valid()
      ensures Announced(d) ==> redis.db == CacheOutcome(old(redis.db), d.ev, now, unreachable).0
      ensures !Announced(d) ==> redis.db == old(redis.db)
      ensures Announced(d) && CacheOutcome(old(redis.db), d.ev, now, unreachable).1 == Uncaught ==>
        && action == Nack(false) && benchmarkCount == old(benchmarkCount) && processed == old(processed)
        && strategy.db.tables == old(strategy.db.tables) && strategy.db.nextIds == old(strategy.db.nextIds)
      ensures (!Announced(d) || CacheOutcome(old(redis.db), d.ev, now, unreachable).1 != Uncaught) ==>
        var p := SharedPlan(d);
        var o := if p.Persist?
                 then SaveOutcomeOf(strategy.fixed, strategy.numShards, |old(strategy.db.tables)|, p.record.userId, fault)
                 else NotSaved;
        var q := if p.Persist? then AfterSave(o) else p;
        && action == q.action
        && benchmarkCount == (if q.ticks then Tick(old(benchmarkCount)) else old(benchmarkCount))
        && processed == old(processed) + (if o == Saved then 1 else 0)
        && (p.Finish? ==> strategy.db.tables == old(strategy.db.tables) && strategy.db.nextIds == old(strategy.db.nextIds))
        && (p.Persist? ==>
              Committed(old(strategy.db.tables), old(strategy.db.nextIds), strategy.db.tables, strategy.db.nextIds,
                        SaveShard(strategy.fixed, p.record.userId, strategy.numShards), p.record,
                        StoredFailReason(strategy.fixed, p.record.failReason), now, o == Saved))
    {
      if Announced(d) {
        var end := UpdateRedisCache(d.ev, now, unreachable);
        if end == Uncaught {
          return Nack(false);
        }
      }
      var p := SharedPlan(d);
      if p.Persist? {
        var o := strategy.Save(p.record, now, fault);
        if o == Saved {
          processed := processed + 1;
        }
        p := AfterSave(o);
      }
      action := p.action;
      if p.ticks {
        benchmarkCount := Tick(benchmarkCount);
      }
    }
  }

  // ---------------------------------------------------------------------
  // The per-user counters
  // ---------------------------------------------------------------------

  /** `attempts - success - failed` for one user. */
  function Imbalance(db: Db<GrabNote>, u: Scalar, now: Time): int
  {
    Count(db, AttemptsKey(u), now) - Count(db, SuccessKey(u), now) - Count(db, FailedKey(u), now)
  }

  lemma CounterKeysDistinct(u: Scalar, v: Scalar)
    ensures AttemptsKey(u) != SuccessKey(v) && AttemptsKey(u) != FailedKey(v) && SuccessKey(u) != FailedKey(v)
    ensures CouponsKey(u) != AttemptsKey(v) && CouponsKey(u) != SuccessKey(v) && CouponsKey(u) != FailedKey(v)
  {
    KeysDiffer("user:attempts:", "user:success:", 5, u.text, v.text);
    KeysDiffer("user:attempts:", "user:failed:", 5, u.text, v.text);
    KeysDiffer("user:success:", "user:failed:", 5, u.text, v.text);
    KeysDiffer("user:coupons:", "user:attempts:", 5, u.text, v.text);
    KeysDiffer("user:coupons:", "user:success:", 5, u.text, v.text);
    KeysDiffer("user:coupons:", "user:failed:", 5, u.text, v.text);
  }

  /** A command on another key leaves a counter's reading alone. */
  lemma CountOther(db: Db<GrabNote>, cmd: Cmd<GrabNote>, key: string, now: Time)
    requires cmd.key != key
    ensures Count(Apply(db, cmd, now).0, key, now) == Count(db, key, now)
  {
  }

  /** A command on none of the three counters leaves the balance alone. */
  lemma OtherKeepsImbalance(db: Db<GrabNote>, cmd: Cmd<GrabNote>, u: Scalar, now: Time)
    requires cmd.key != AttemptsKey(u) && cmd.key != SuccessKey(u) && cmd.key != FailedKey(u)
    ensures Imbalance(Apply(db, cmd, now).0, u, now) == Imbalance(db, u, now)
  {
    CountOther(db, cmd, AttemptsKey(u), now);
    CountOther(db, cmd, SuccessKey(u), now);
    CountOther(db, cmd, FailedKey(u), now);
  }

  /** INCR of attempts followed by INCR of successes or of failures leaves
      the balance alone. */
  lemma PairKeepsImbalance(db: Db<GrabNote>, u: Scalar, second: string, now: Time)
    requires second == SuccessKey(u) || second == FailedKey(u)
    requires Apply(db, IncrBy(AttemptsKey(u), 1), now).1 != Error
    requires Apply(Apply(db, IncrBy(AttemptsKey(u), 1), now).0, IncrBy(second, 1), now).1 != Error
    ensures var d1 := Apply(db, IncrBy(AttemptsKey(u), 1), now).0;
      Imbalance(Apply(d1, IncrBy(second, 1), now).0, u, now) == Imbalance(db, u, now)
  {
    CounterKeysDistinct(u, u);
    var d1 := Apply(db, IncrBy(AttemptsKey(u), 1), now).0;
    IncrCounts(db, AttemptsKey(u), 1, now);
    CountOther(db, IncrBy(AttemptsKey(u), 1), SuccessKey(u), now);
    CountOther(db, IncrBy(AttemptsKey(u), 1), FailedKey(u), now);
    IncrCounts(d1, second, 1, now);
    CountOther(d1, IncrBy(second, 1), AttemptsKey(u), now);
    if second == SuccessKey(u) {
      CountOther(d1, IncrBy(second, 1), FailedKey(u), now);
    } else {
      CountOther(d1, IncrBy(second, 1), SuccessKey(u), now);
    }
  }

  /** When every command of a grab's update reaches the server, attempts
      stay equal to successes plus failures. */
  lemma GrabKeepsBalance(db: Db<GrabNote>, ev: Event, now: Time, unreachable: nat -> bool)
    requires ev.userId.Some? && ev.eventType == Some(COUPON_GRAB) && ev.success.Some?
    requires Run(db, CacheScript(ev, now).cmds, now, unreachable, 0).1 == Completed
    ensures Imbalance(CacheOutcome(db, ev, now, unreachable).0, ev.userId.value, now) == Imbalance(db, ev.userId.value, now)
  {
    var u := ev.userId.value;
    var cmds := CacheScript(ev, now).cmds;
    CounterKeysDistinct(u, u);
    assert cmds[0..] == cmds;
    RunStep(db, cmds, now, unreachable, 0);
    var d1 := Apply(db, cmds[0], now).0;
    RunStep(d1, cmds, now, unreachable, 1);
    var d2 := Apply(d1, cmds[1], now).0;
    PairKeepsImbalance(db, u, cmds[1].key, now);
    if ev.success.value.truthy && ev.timestamp.Some? {
      RunStep(d2, cmds, now, unreachable, 2);
      var d3 := Apply(d2, cmds[2], now).0;
      OtherKeepsImbalance(d2, cmds[2], u, now);
      RunStep(d3, cmds, now, unreachable, 3);
      OtherKeepsImbalance(d3, cmds[3], u, now);
      assert cmds[4..] == [];
    } else {
      assert cmds[2..] == [];
    }
  }

  /** The balance is not kept when the update stops after the attempt is
      counted: a grab message without `success`, or a Redis failure on the
      second command, leaves one attempt that is neither a success nor a
      failure. */
  lemma InterruptedGrabUnbalances(db: Db<GrabNote>, ev: Event, now: Time, unreachable: nat -> bool)
    requires ev.userId.Some? && ev.eventType == Some(COUPON_GRAB)
    requires Apply(db, IncrBy(AttemptsKey(ev.userId.value), 1), now).1 != Error && !unreachable(0)
    requires ev.success.None? || unreachable(1)
    ensures Imbalance(CacheOutcome(db, ev, now, unreachable).0, ev.userId.value, now) == Imbalance(db, ev.userId.value, now) + 1
  {
    var u := ev.userId.value;
    var s := CacheScript(ev, now);
    CounterKeysDistinct(u, u);
    var c0 := s.cmds[0];
    var d1 := Apply(db, c0, now).0;
    IncrCounts(db, AttemptsKey(u), 1, now);
    CountOther(db, c0, SuccessKey(u), now);
    CountOther(db, c0, FailedKey(u), now);
    assert Run(db, s.cmds, now, unreachable, 0) == Run(d1, s.cmds[1..], now, unreachable, 1);
    if ev.success.None? {
      assert s.cmds[1..] == [];
    }
  }

  /** The benchmark counter never reaches TARGET_REQUESTS: after every
      message it lies in [0, TARGET_REQUESTS). */
  lemma TickWraps(count: nat)
    requires count < TARGET_REQUESTS
    ensures Tick(count) < TARGET_REQUESTS
    ensures count == TARGET_REQUESTS - 1 ==> Tick(count) == 0
    ensures count < TARGET_REQUESTS - 1 ==> Tick(count) == count + 1
  {
  }
}
