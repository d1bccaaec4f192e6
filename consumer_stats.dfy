/**
 * The single-database consumer: each message updates Redis (per-user
 * counters and the mirrored stock) and then writes the event to MySQL,
 * keeping per-user grab statistics with an upsert. A message is
 * acknowledged only when both stores took it; otherwise it is requeued.
 */
module StatsConsumer {
  import opened Common
  import opened Events
  import opened KeyValue

  const COUPON_LIST_TTL: nat := 7 * 24 * 3600
  const STOCK_KEY: string := "coupon:stock"

  /** The JSON document pushed onto `user:coupons:{user_id}`. */
  datatype StampNote = StampNote(timestamp: Scalar, grabbedAt: Time)

  function AttemptsKey(u: Scalar): string { UserKey("user:attempts:", u) }
  function SuccessKey(u: Scalar): string { UserKey("user:success:", u) }
  function FailedKey(u: Scalar): string { UserKey("user:failed:", u) }
  function CouponsKey(u: Scalar): string { UserKey("user:coupons:", u) }
  function LikesKey(u: Scalar): string { UserKey("user:likes:", u) }

  /** `event.get('remaining_stock', 0)` as Redis stores it. */
  function StockText(f: Option<Scalar>): string
  {
    if f.None? then "0" else f.value.text
  }

  /** `set("coupon:stock", event.get('remaining_stock', 0))`: redis-py
      refuses a value it cannot encode (a JSON `null` or boolean). */
  function StockSet(f: Option<Scalar>): Cmd<StampNote>
  {
    if f.None? || f.value.encodable then Set(STOCK_KEY, StockText(f)) else Refused(STOCK_KEY)
  }

  /** The Redis commands `update_redis_cache` sends, in order, and whether an
      uncaught exception (KeyError, TypeError) follows them. */
  datatype Script = Script(cmds: seq<Cmd<StampNote>>, thenRaises: bool)

  function CacheScript(ev: Event, now: Time): (s: Script)
    ensures ev.userId.None? || ev.eventType.None? ==> s == Script([], true)
    ensures ev.userId.Some? && ev.eventType == Some(LIKE) && ev.isTopLike.Some? && ev.isTopLike.value.truthy
              && !ev.userId.value.hashable ==>
      s == Script([IncrBy(LikesKey(ev.userId.value), 1)], true)
    ensures ev.userId.Some? && ev.eventType == Some(COUPON_GRAB) && ev.success.Some? && (ev.timestamp.Some? || !ev.success.value.truthy) ==>
      !s.thenRaises && |s.cmds| >= 2 && s.cmds[|s.cmds| - 1] == StockSet(ev.remainingStock)
  {
    if ev.userId.None? || ev.eventType.None? then Script([], true)
    else
      var u := ev.userId.value;
      if ev.eventType.value == COUPON_GRAB then
        var attempt := IncrBy(AttemptsKey(u), 1);
        var stock := StockSet(ev.remainingStock);
        if ev.success.None? then Script([attempt], true)
        else if ev.success.value.truthy then
          if ev.timestamp.None? then Script([attempt, IncrBy(SuccessKey(u), 1)], true)
          else Script([attempt, IncrBy(SuccessKey(u), 1),
                       LPush(CouponsKey(u), StampNote(ev.timestamp.value, now)),
                       Expire(CouponsKey(u), COUPON_LIST_TTL), stock], false)
        else Script([attempt, IncrBy(FailedKey(u), 1), stock], false)
      else if ev.eventType.value == LIKE then
        var like := IncrBy(LikesKey(u), 1);
        if ev.isTopLike.None? || !ev.isTopLike.value.truthy then Script([like], false)
        else if ev.timestamp.None? || !u.hashable then Script([like], true)
        else Script([like, TopLikeAdd(u, ev.timestamp.value)], false)
      else Script([], false)
  }

  /** How `update_redis_cache` ends: True, False after a RedisError, or an
      exception it does not catch (a KeyError, or the TypeError of an
      unhashable user id as a dict key). */
  datatype CacheEnd = Updated | RedisFailed | Uncaught

  function CacheOutcome(db: Db<StampNote>, ev: Event, now: Time, unreachable: nat -> bool): (out: (Db<StampNote>, CacheEnd))
    ensures ev.userId.None? || ev.eventType.None? ==> out == (db, Uncaught)
    ensures ev.userId.Some? && ev.eventType.Some? && ev.eventType.value != COUPON_GRAB && ev.eventType.value != LIKE ==>
      out == (db, Updated)
    ensures unreachable(0) && out.1 != Uncaught ==> out.0 == db
  {
    var s := CacheScript(ev, now);
    var run := Run(db, s.cmds, now, unreachable, 0);
    (run.0, if run.1.FailedAt? then RedisFailed else if s.thenRaises then Uncaught else Updated)
  }

  /** A top like whose user id cannot be a dict key (a JSON list or object)
      raises TypeError while `{user_id: ...}` is built, after the like
      counter's INCR; `update_redis_cache` does not catch it, and `top_likes`
      is left as it was. */
  lemma UnhashableTopLikeRaises(db: Db<StampNote>, ev: Event, now: Time, unreachable: nat -> bool)
    requires ev.userId.Some? && ev.eventType == Some(LIKE)
    requires ev.isTopLike.Some? && ev.isTopLike.value.truthy && !ev.userId.value.hashable
    ensures CacheOutcome(db, ev, now, unreachable).1 != Updated
    ensures !unreachable(0) && Apply(db, IncrBy(LikesKey(ev.userId.value), 1), now).1 != Error ==>
      CacheOutcome(db, ev, now, unreachable).1 == Uncaught
    ensures Current(CacheOutcome(db, ev, now, unreachable).0, TOP_LIKES, now) == Current(db, TOP_LIKES, now)
  {
    var cmds := CacheScript(ev, now).cmds;
    KeysDiffer("user:likes:", TOP_LIKES, 0, ev.userId.value.text, "");
    assert TOP_LIKES + "" == TOP_LIKES;
    RunStep(db, cmds, now, unreachable, 0);
    assert cmds[0..] == cmds;
  }

  /** A top like whose user id is hashable but which redis-py cannot encode
      (a JSON `null` or boolean), or whose timestamp it cannot encode, ends
      the update in a RedisError, and `top_likes` is left as it was: at most
      the like counter moved. */
  lemma RefusedTopLikeFails(db: Db<StampNote>, ev: Event, now: Time, unreachable: nat -> bool)
    requires ev.userId.Some? && ev.eventType == Some(LIKE) && ev.userId.value.hashable
    requires ev.isTopLike.Some? && ev.isTopLike.value.truthy && ev.timestamp.Some?
    requires !ev.userId.value.encodable || !ev.timestamp.value.encodable
    ensures CacheOutcome(db, ev, now, unreachable).1 == RedisFailed
    ensures Current(CacheOutcome(db, ev, now, unreachable).0, TOP_LIKES, now) == Current(db, TOP_LIKES, now)
  {
    var cmds := CacheScript(ev, now).cmds;
    KeysDiffer("user:likes:", TOP_LIKES, 0, ev.userId.value.text, "");
    assert TOP_LIKES + "" == TOP_LIKES;
    RunStep(db, cmds, now, unreachable, 0);
    assert cmds[0..] == cmds;
  }

  /** A top like's update completes only when the user id can be a dict key,
      both values encode and Redis reads the timestamp as a float; `top_likes` then scores the user's id
      with it. */
  lemma TopLikeRecorded(db: Db<StampNote>, ev: Event, now: Time, unreachable: nat -> bool)
    requires ev.userId.Some? && ev.eventType == Some(LIKE)
    requires ev.isTopLike.Some? && ev.isTopLike.value.truthy
    requires CacheOutcome(db, ev, now, unreachable).1 == Updated
    ensures ev.timestamp.Some? && ev.userId.value.hashable
    ensures ev.userId.value.encodable && ev.timestamp.value.encodable && ev.timestamp.value.asScore.Some?
    ensures var z := Current(CacheOutcome(db, ev, now, unreachable).0, TOP_LIKES, now);
      && z.Some? && z.value.ZSet? && ev.userId.value.text in z.value.scores
      && z.value.scores[ev.userId.value.text] == ev.timestamp.value.asScore.value
  {
    var cmds := CacheScript(ev, now).cmds;
    RunStep(db, cmds, now, unreachable, 0);
    assert cmds[0..] == cmds;
    var mid := Apply(db, cmds[0], now).0;
    RunStep(mid, cmds, now, unreachable, 1);
  }

  /** When every command of a grab's update reaches the server, the stock
      mirror holds the event's `remaining_stock`: the last writer wins. An
      update that completed had a stock value redis-py could encode. */
  lemma StockMirrorsLastEvent(db: Db<StampNote>, ev: Event, now: Time, unreachable: nat -> bool)
    requires ev.userId.Some? && ev.eventType == Some(COUPON_GRAB) && ev.success.Some?
    requires ev.timestamp.Some? || !ev.success.value.truthy
    requires CacheOutcome(db, ev, now, unreachable).1 == Updated
    ensures ev.remainingStock.None? || ev.remainingStock.value.encodable
    ensures Current(CacheOutcome(db, ev, now, unreachable).0, STOCK_KEY, now) == Some(Str(StockText(ev.remainingStock)))
  {
    var cmds := CacheScript(ev, now).cmds;
    RunLast(db, cmds, now, unreachable, 0);
  }

  /** A completed run ends with the effect of its last command, which
      therefore was not refused by the client. */
  lemma {:induction false} RunLast<T>(db: Db<T>, cmds: seq<Cmd<T>>, now: Time, unreachable: nat -> bool, from: nat)
    requires |cmds| >= 1 && (cmds[|cmds| - 1].Set? || cmds[|cmds| - 1].Refused?)
    requires Run(db, cmds, now, unreachable, from).1 == Completed
    ensures cmds[|cmds| - 1].Set?
    ensures Current(Run(db, cmds, now, unreachable, from).0, cmds[|cmds| - 1].key, now) == Some(Str(cmds[|cmds| - 1].s))
    decreases |cmds|
  {
    var step := Apply(db, cmds[0], now);
    if |cmds| > 1 {
      assert cmds[1..][|cmds[1..]| - 1] == cmds[|cmds| - 1];
      RunLast(step.0, cmds[1..], now, unreachable, from + 1);
    } else {
      assert cmds[1..] == [];
    }
  }

  // ---------------------------------------------------------------------
  // MySQL
  // ---------------------------------------------------------------------

  /** A row of `coupon_events`. */
  datatype CouponEventRow = CouponEventRow(userId: Scalar, eventType: string, success: Scalar,
                                           reason: Option<Scalar>, remainingStock: Option<Scalar>, timestamp: Scalar)

  /** A row of `like_events`. */
  datatype LikeEventRow = LikeEventRow(userId: Scalar, eventType: string, isTopLike: Scalar, timestamp: Scalar)

  /** A row of `user_coupon_stats`. */
  datatype UserStats = UserStats(totalAttempts: int, successfulGrabs: int, failedGrabs: int, lastAttemptTime: Scalar)

  /** `INSERT ... ON DUPLICATE KEY UPDATE` on `user_coupon_stats`. */
  function Upsert(stats: map<Scalar, UserStats>, u: Scalar, success: bool, ts: Scalar): (out: map<Scalar, UserStats>)
    ensures out.Keys == stats.Keys + {u}
    ensures forall v :: v in stats && v != u ==> out[v] == stats[v]
    ensures u !in stats ==> out[u] == UserStats(1, if success then 1 else 0, if success then 0 else 1, ts)
    ensures u in stats ==>
      out[u] == UserStats(stats[u].totalAttempts + 1,
                          stats[u].successfulGrabs + (if success then 1 else 0),
                          stats[u].failedGrabs + (if success then 0 else 1), ts)
  {
    var s := if success then 1 else 0;
    if u !in stats then stats[u := UserStats(1, s, 1 - s, ts)]
    else
      var old_ := stats[u];
      stats[u := UserStats(old_.totalAttempts + 1, old_.successfulGrabs + s, old_.failedGrabs + 1 - s, ts)]
  }

  /** Every user's attempts are their successes plus their failures. */
  predicate Balanced(stats: map<Scalar, UserStats>)
  {
    forall v :: v in stats ==> stats[v].totalAttempts == stats[v].successfulGrabs + stats[v].failedGrabs
  }

  /** The upsert keeps every user balanced. */
  lemma UpsertKeepsBalance(stats: map<Scalar, UserStats>, u: Scalar, success: bool, ts: Scalar)
    requires Balanced(stats)
    ensures Balanced(Upsert(stats, u, success, ts))
  {
    var out := Upsert(stats, u, success, ts);
    forall v | v in out
      ensures out[v].totalAttempts == out[v].successfulGrabs + out[v].failedGrabs
    {
      if v != u {
        assert out[v] == stats[v];
      }
    }
  }

  /** The statements `save_to_mysql` would commit, or `None` when a key it
      reads with `event[...]` is missing. */
  datatype SqlWrite =
    | GrabWrite(row: CouponEventRow, user: Scalar, success: bool, ts: Scalar)
    | LikeWrite(like: LikeEventRow)
    | NoWrite

  function PlannedWrite(ev: Event): (w: Option<SqlWrite>)
    ensures ev.eventType.None? ==> w.None?
    ensures ev.eventType.Some? && ev.eventType.value != COUPON_GRAB && ev.eventType.value != LIKE ==> w == Some(NoWrite)
    ensures w.Some? && w.value.GrabWrite? ==>
      && ev.eventType == Some(COUPON_GRAB) && ev.userId.Some? && ev.success.Some? && ev.timestamp.Some?
      && w.value.user == ev.userId.value && w.value.success == ev.success.value.truthy && w.value.ts == ev.timestamp.value
    ensures ev.eventType == Some(COUPON_GRAB) && ev.userId.Some? && ev.success.Some? && ev.timestamp.Some? ==> w.Some? && w.value.GrabWrite?
  {
    if ev.eventType.None? then None
    else if ev.eventType.value == COUPON_GRAB then
      if ev.userId.None? || ev.success.None? || ev.timestamp.None? then None
      else Some(GrabWrite(CouponEventRow(ev.userId.value, COUPON_GRAB, ev.success.value, ev.reason, ev.remainingStock,
                                         ev.timestamp.value),
                          ev.userId.value, ev.success.value.truthy, ev.timestamp.value))
    else if ev.eventType.value == LIKE then
      if ev.userId.None? || ev.isTopLike.None? || ev.timestamp.None? then None
      else Some(LikeWrite(LikeEventRow(ev.userId.value, LIKE, ev.isTopLike.value, ev.timestamp.value)))
    else Some(NoWrite)
  }

  /** The `event_system` database. */
  class EventDatabase {
    var couponEvents: seq<CouponEventRow>
    var likeEvents: seq<LikeEventRow>
    var userStats: map<Scalar, UserStats>

    constructor ()
      ensures couponEvents == [] && likeEvents == [] && userStats == map[]
    {
      couponEvents := [];
      likeEvents := [];
      userStats := map[];
    }

    /** Commits the statements of one message in one transaction. */
    method Commit(w: SqlWrite)
      modifies this
      ensures w.GrabWrite? ==>
        && couponEvents == old(couponEvents) + [w.row] && likeEvents == old(likeEvents)
        && userStats == Upsert(old(userStats), w.user, w.success, w.ts)
      ensures w.LikeWrite? ==>
        couponEvents == old(couponEvents) && likeEvents == old(likeEvents) + [w.like] && userStats == old(userStats)
      ensures w.NoWrite? ==>
        couponEvents == old(couponEvents) && likeEvents == old(likeEvents) && userStats == old(userStats)
    {
      match w
      case GrabWrite(row, u, s, ts) =>
        couponEvents := couponEvents + [row];
        userStats := Upsert(userStats, u, s, ts);
      case LikeWrite(like) =>
        likeEvents := likeEvents + [like];
      case NoWrite =>
    }
  }

  class StatsConsumer {
    const redis: RedisStore<StampNote>
    const mysql: EventDatabase
    var processed: nat
    var errors: nat

    constructor (redis: RedisStore<StampNote>, mysql: EventDatabase)
      ensures this.redis == redis && this.mysql == mysql && processed == 0 && errors == 0
    {
      this.redis := redis;
      this.mysql := mysql;
      processed := 0;
      errors := 0;
    }

    /** `save_to_mysql`: commits the message's statements, or, on a missing
        key or a database error (`dbFails`), commits nothing, counts an
        error and returns False. */
    method SaveToMysql(ev: Event, dbFails: bool) returns (ok: bool)
      modifies this, mysql
      ensures ok <==> PlannedWrite(ev).Some? && !dbFails
      ensures errors == old(errors) + (if ok then 0 else 1) && processed == old(processed)
      ensures ok ==> PlannedWrite(ev).value.GrabWrite? ==>
        && mysql.couponEvents == old(mysql.couponEvents) + [PlannedWrite(ev).value.row]
        && mysql.userStats == Upsert(old(mysql.userStats), PlannedWrite(ev).value.user,
                                     PlannedWrite(ev).value.success, PlannedWrite(ev).value.ts)
        && mysql.likeEvents == old(mysql.likeEvents)
      ensures ok ==> PlannedWrite(ev).value.LikeWrite? ==>
        && mysql.likeEvents == old(mysql.likeEvents) + [PlannedWrite(ev).value.like]
        && mysql.couponEvents == old(mysql.couponEvents) && mysql.userStats == old(mysql.userStats)
      ensures !ok || PlannedWrite(ev).value.NoWrite? ==>
        mysql.couponEvents == old(mysql.couponEvents) && mysql.likeEvents == old(mysql.likeEvents)
        && mysql.userStats == old(mysql.userStats)
    {
      var w := PlannedWrite(ev);
      if w.None? || dbFails {
        errors := errors + 1;
        return false;
      }
      mysql.Commit(w.value);
      ok := true;
    }

    /** The `coupon_grab` and `like` branches of `update_redis_cache`. */
    method UpdateRedisCache(ev: Event, now: Time, unreachable: nat -> bool) returns (end: CacheEnd)
      modifies redis
      ensures (redis.db, end) == CacheOutcome(old(redis.db), ev, now, unreachable)
    {
      if ev.userId.None? || ev.eventType.None? {
        return Uncaught;
      }
      if ev.eventType.value == COUPON_GRAB {
        end := UpdateGrabCounters(ev, now, unreachable);
      } else if ev.eventType.value == LIKE {
        end := UpdateLikeCounters(ev, now, unreachable);
      } else {
        end := Updated;
      }
    }

    method Send(cmd: Cmd<StampNote>, now: Time, unreachable: bool) returns (ok: bool)
      modifies redis
      ensures ok <==> !unreachable && Apply(old(redis.db), cmd, now).1 != Error
      ensures redis.db == if ok then Apply(old(redis.db), cmd, now).0 else old(redis.db)
    {
      if unreachable {
        return false;
      }
      var reply := redis.Exec(cmd, now);
      ok := reply != Error;
    }

    method UpdateGrabCounters(ev: Event, now: Time, unreachable: nat -> bool) returns (end: CacheEnd)
      requires ev.userId.Some? && ev.eventType == Some(COUPON_GRAB)
      modifies redis
      ensures (redis.db, end) == CacheOutcome(old(redis.db), ev, now, unreachable)
    {
      var u := ev.userId.value;
      ghost var cmds := CacheScript(ev, now).cmds;
      assert cmds[0..] == cmds;
      RunStep(redis.db, cmds, now, unreachable, 0);
      var ok := Send(IncrBy(AttemptsKey(u), 1), now, unreachable(0));
      if !ok { return RedisFailed; }
      if ev.success.None? {
        assert cmds[1..] == [];
        return Uncaught;
      }
      var next := 2;
      if ev.success.value.truthy {
        RunStep(redis.db, cmds, now, unreachable, 1);
        ok := Send(IncrBy(SuccessKey(u), 1), now, unreachable(1));
        if !ok { return RedisFailed; }
        if ev.timestamp.None? {
          assert cmds[2..] == [];
          return Uncaught;
        }
        RunStep(redis.db, cmds, now, unreachable, 2);
        ok := Send(LPush(CouponsKey(u), StampNote(ev.timestamp.value, now)), now, unreachable(2));
        if !ok { return RedisFailed; }
        RunStep(redis.db, cmds, now, unreachable, 3);
        ok := Send(Expire(CouponsKey(u), COUPON_LIST_TTL), now, unreachable(3));
        if !ok { return RedisFailed; }
        next := 4;
      } else {
        RunStep(redis.db, cmds, now, unreachable, 1);
        ok := Send(IncrBy(FailedKey(u), 1), now, unreachable(1));
        if !ok { return RedisFailed; }
      }
      RunStep(redis.db, cmds, now, unreachable, next);
      ok := Send(StockSet(ev.remainingStock), now, unreachable(next));
      if !ok { return RedisFailed; }
      assert cmds[next + 1..] == [];
      end := Updated;
    }

    method UpdateLikeCounters(ev: Event, now: Time, unreachable: nat -> bool) returns (end: CacheEnd)
      requires ev.userId.Some? && ev.eventType == Some(LIKE)
      modifies redis
      ensures (redis.db, end) == CacheOutcome(old(redis.db), ev, now, unreachable)
    {
      var u := ev.userId.value;
      ghost var cmds := CacheScript(ev, now).cmds;
      assert cmds[0..] == cmds;
      RunStep(redis.db, cmds, now, unreachable, 0);
      var ok := Send(IncrBy(LikesKey(u), 1), now, unreachable(0));
      if !ok { return RedisFailed; }
      if ev.isTopLike.Some? && ev.isTopLike.value.truthy {
        if ev.timestamp.None? || !u.hashable {
          assert cmds[1..] == [];
          return Uncaught;
        }
        RunStep(redis.db, cmds, now, unreachable, 1);
        ok := Send(TopLikeAdd(u, ev.timestamp.value), now, unreachable(1));
        if !ok { return RedisFailed; }
        assert cmds[2..] == [];
      } else {
        assert cmds[1..] == [];
      }
      end := Updated;
    }

    /** `process_event` */
    method Process(d: Delivery, now: Time, unreachable: nat -> bool, dbFails: bool) returns (action: QueueAction)
      modifies this, redis, mysql
      ensures d.Undecodable? ==> action == Ack && errors == old(errors) + 1
      ensures !d.Undecodable? && !Announced(d) ==> action == Nack(true) && errors == old(errors) + 1
      ensures !Announced(d) ==>
        && redis.db == old(redis.db) && processed == old(processed)
        && mysql.couponEvents == old(mysql.couponEvents) && mysql.likeEvents == old(mysql.likeEvents)
        && mysql.userStats == old(mysql.userStats)
      ensures Announced(d) ==>
        var cache := CacheOutcome(old(redis.db), d.ev, now, unreachable);
        var written := cache.1 != Uncaught && PlannedWrite(d.ev).Some? && !dbFails;
        && redis.db == cache.0
        && (action == Ack <==> cache.1 == Updated && written)
        && (action != Ack ==> action == Nack(true))
        && processed == old(processed) + (if action == Ack then 1 else 0)
        && errors == old(errors) + (if written then 0 else 1)
        && (!written ==> mysql.couponEvents == old(mysql.couponEvents) && mysql.likeEvents == old(mysql.likeEvents)
                          && mysql.userStats == old(mysql.userStats))
        && (written && PlannedWrite(d.ev).value.GrabWrite? ==>
              && mysql.couponEvents == old(mysql.couponEvents) + [PlannedWrite(d.ev).value.row]
              && mysql.likeEvents == old(mysql.likeEvents)
              && mysql.userStats == Upsert(old(mysql.userStats), PlannedWrite(d.ev).value.user,
                                           PlannedWrite(d.ev).value.success, PlannedWrite(d.ev).value.ts))
        && (written && PlannedWrite(d.ev).value.LikeWrite? ==>
              && mysql.likeEvents == old(mysql.likeEvents) + [PlannedWrite(d.ev).value.like]
              && mysql.couponEvents == old(mysql.couponEvents) && mysql.userStats == old(mysql.userStats))
        && (written && PlannedWrite(d.ev).value.NoWrite? ==>
              mysql.couponEvents == old(mysql.couponEvents) && mysql.likeEvents == old(mysql.likeEvents)
              && mysql.userStats == old(mysql.userStats))
    {
      if !Announced(d) {
        errors := errors + 1;
        return if d.Undecodable? then Ack else Nack(true);
      }
      var cache := UpdateRedisCache(d.ev, now, unreachable);
      if cache == Uncaught {
        errors := errors + 1;
        return Nack(true);
      }
      var saved := SaveToMysql(d.ev, dbFails);
      if cache == Updated && saved {
        action := Ack;
        processed := processed + 1;
      } else {
        action := Nack(true);
      }
    }
  }

  /** The statistics after committing a run of messages' statements. */
  function StatsAfter(stats: map<Scalar, UserStats>, ws: seq<SqlWrite>): map<Scalar, UserStats>
    decreases |ws|
  {
    if ws == [] then stats
    else
      var next := if ws[0].GrabWrite? then Upsert(stats, ws[0].user, ws[0].success, ws[0].ts) else stats;
      StatsAfter(next, ws[1..])
  }

  /** The per-user statistics stay balanced whatever messages are committed. */
  lemma {:induction false} StatsStayBalanced(stats: map<Scalar, UserStats>, ws: seq<SqlWrite>)
    requires Balanced(stats)
    ensures Balanced(StatsAfter(stats, ws))
    decreases |ws|
  {
    if ws != [] {
      if ws[0].GrabWrite? {
        UpsertKeepsBalance(stats, ws[0].user, ws[0].success, ws[0].ts);
      }
      var next := if ws[0].GrabWrite? then Upsert(stats, ws[0].user, ws[0].success, ws[0].ts) else stats;
      StatsStayBalanced(next, ws[1..]);
    }
  }

  /** A grab whose MySQL write committed but whose Redis update failed is
      requeued; when it is delivered again and both stores take it, the
      user's attempt is counted twice and a second `coupon_events` row is
      written. */
  lemma RedeliveryCountsTwice(stats: map<Scalar, UserStats>, w: SqlWrite)
    requires w.GrabWrite? && w.user !in stats
    ensures var twice := Upsert(Upsert(stats, w.user, w.success, w.ts), w.user, w.success, w.ts);
      && twice[w.user].totalAttempts == 2
      && twice[w.user].successfulGrabs == (if w.success then 2 else 0)
  {
  }
}
