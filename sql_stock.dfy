/**
 * The MySQL-only producer: a grab locks the `default` row of
 * `coupon_config` (`SELECT ... FOR UPDATE`), and when stock is left it
 * decrements it and inserts the event row in the same transaction. The
 * admin endpoints reset the stock and mirror it into Redis under
 * `coupon:stock`, compare the two, and copy the Redis value back.
 */
module SqlStock {
  import opened Common
  import opened KeyValue
  import opened GrabApi

  const MIRROR_KEY: string := "coupon:stock"

  /** The `default` row of `coupon_config`. */
  datatype CouponConfig = CouponConfig(totalStock: int, remainingStock: int)

  /** A `coupon_events` row written by a grab (`event_type`, `success` and
      `reason` are always `coupon_grab`, 1 and `success`). */
  datatype EventRow = EventRow(userId: string, remainingStock: int, timestamp: Time)

  datatype Tables = Tables(config: Option<CouponConfig>, events: seq<EventRow>)

  /** `result['remaining_stock'] if result else 0` */
  function LockedStock(t: Tables): int
  {
    if t.config.None? then 0 else t.config.value.remainingStock
  }

  /** `grab_coupon`: the committed tables and the response. `dbFails`: the
      connection, a statement or the commit raised, and the transaction was
      rolled back. */
  function SqlGrab(t: Tables, userId: string, now: Time, dbFails: bool): (out: (Tables, GrabReply))
    ensures out.0 == t || Succeeded(out.1)
    ensures out.1.Answer? ==> !out.1.filtered && out.1.remainingStock >= 0
  {
    var stock := LockedStock(t);
    if dbFails then (t, ServerError(DatabaseError))
    else if stock > 0 then
      (Tables(Some(t.config.value.(remainingStock := stock - 1)), t.events + [EventRow(userId, stock - 1, now)]),
       Outcome(true, stock - 1, false))
    else (t, Outcome(false, 0, false))
  }

  /** The decrement and the event row are committed together or not at
      all, and exactly when the response is a success. */
  lemma SqlGrabAtomic(t: Tables, userId: string, now: Time, dbFails: bool)
    ensures var out := SqlGrab(t, userId, now, dbFails);
      && (Succeeded(out.1) <==> !dbFails && LockedStock(t) > 0)
      && (Succeeded(out.1) ==>
            && out.0.config == Some(t.config.value.(remainingStock := LockedStock(t) - 1))
            && out.0.events == t.events + [EventRow(userId, LockedStock(t) - 1, now)]
            && out.1.remainingStock == LockedStock(t) - 1)
      && (!Succeeded(out.1) ==> out.0 == t)
      && (out.1.Answer? && !out.1.success ==> out.1.remainingStock == 0 && LockedStock(t) <= 0)
      && (dbFails <==> out.1 == ServerError(DatabaseError))
  {
  }

  datatype SqlAttempt = SqlAttempt(userId: string, now: Time, dbFails: bool)

  function SqlGrabAll(t: Tables, attempts: seq<SqlAttempt>): (out: (Tables, seq<GrabReply>))
    ensures |out.1| == |attempts|
    decreases |attempts|
  {
    if attempts == [] then (t, [])
    else
      var a := attempts[0];
      var o := SqlGrab(t, a.userId, a.now, a.dbFails);
      var rest := SqlGrabAll(o.0, attempts[1..]);
      (rest.0, [o.1] + rest.1)
  }

  function Granted(replies: seq<GrabReply>): nat
  {
    if replies == [] then 0 else (if Succeeded(replies[0]) then 1 else 0) + Granted(replies[1..])
  }

  /** Served one at a time from a non-negative stock, the successes and
      what is left add up to the starting stock, each success has its event
      row, and the counter never goes negative. */
  lemma {:induction false} SqlNoOversell(t: Tables, attempts: seq<SqlAttempt>)
    requires LockedStock(t) >= 0
    ensures var out := SqlGrabAll(t, attempts);
      && LockedStock(out.0) >= 0
      && Granted(out.1) + LockedStock(out.0) == LockedStock(t)
      && |out.0.events| == |t.events| + Granted(out.1)
      && out.0.config.Some? == t.config.Some?
    decreases |attempts|
  {
    if attempts != [] {
      var a := attempts[0];
      var o := SqlGrab(t, a.userId, a.now, a.dbFails);
      SqlGrabAtomic(t, a.userId, a.now, a.dbFails);
      SqlNoOversell(o.0, attempts[1..]);
      var out := SqlGrabAll(t, attempts);
      assert out.1[1..] == SqlGrabAll(o.0, attempts[1..]).1;
    }
  }

  /** `int(redis_client.get('coupon:stock')) if ... else 0`, with Python's
      `int` on the string; `None` when that raises (text `int` refuses, or a
      key of another type). */
  function MirrorStock(db: Db<string>, now: Time): (r: Option<int>)
    ensures Current(db, MIRROR_KEY, now).None? ==> r == Some(0)
    ensures Current(db, MIRROR_KEY, now) == Some(Str("")) ==> r == Some(0)
    ensures forall s :: Current(db, MIRROR_KEY, now) == Some(Str(s)) && s != "" ==> r == PyInt(s)
  {
    match Apply(db, Get(MIRROR_KEY), now).1
    case Bulk(None) => Some(0)
    case Bulk(Some(s)) => if s == "" then Some(0) else PyInt(s)
    case _ => None
  }

  /** The mirror is read as Python reads it: any text INCR would accept
      reads the same, and so does a value `int` alone accepts, such as the
      `"007"` a consumer may have copied from an event. */
  lemma MirrorReadsPythonText(db: Db<string>, now: Time, s: string)
    requires Current(db, MIRROR_KEY, now) == Some(Str(s))
    ensures IntValue(s).Some? ==> MirrorStock(db, now) == IntValue(s)
    ensures s == "007" ==> MirrorStock(db, now) == Some(7)
    ensures s == "\U{1c}7" ==> MirrorStock(db, now).None?
  {
    PyIntExtendsIntValue(s);
    if s == "007" {
      PyIntAccepts();
    } else if s == "\U{1c}7" {
      PyIntRefuses();
    }
  }

  /** The body of `/admin/stats`. */
  datatype StockStats = StockStats(redisStock: int, mysqlStock: int, queueDepth: int, filterEnabled: bool, syncNeeded: bool)

  /** `get_stats`; `None` is a 500. The MySQL read reports -1 when it fails,
      and the queue depth is passed in (-1 when it could not be read). */
  function GetStats(db: Db<string>, t: Tables, now: Time, redisDown: bool, mysqlDown: bool,
                    queueDepth: int, filter: bool): (r: Option<StockStats>)
    ensures r.None? <==> redisDown || MirrorStock(db, now).None?
    ensures r.Some? ==>
      && r.value.redisStock == MirrorStock(db, now).value
      && r.value.mysqlStock == (if mysqlDown then -1 else LockedStock(t))
      && (r.value.syncNeeded <==> r.value.redisStock != r.value.mysqlStock)
      && r.value.queueDepth == queueDepth && r.value.filterEnabled == filter
  {
    if redisDown then None
    else match MirrorStock(db, now)
      case None => None
      case Some(redisStock) =>
        var mysqlStock := if mysqlDown then -1 else LockedStock(t);
        Some(StockStats(redisStock, mysqlStock, queueDepth, filter, redisStock != mysqlStock))
  }

  /** What an admin endpoint answers: the stock it reports, or a 500. */
  datatype AdminReply = StockIs(stock: int) | AdminError

  /** `reset_stock`: the tables and the Redis data afterwards. `dbFails`:
      the UPDATE or SELECT raised; `redisDown`: the SET raised (nothing was
      committed); `commitFails`: the commit raised after Redis was set. */
  function StockReset(t: Tables, db: Db<string>, now: Time, dbFails: bool, redisDown: bool, commitFails: bool)
    : (out: (Tables, Db<string>, AdminReply))
    ensures out.0.events == t.events
    ensures out.2.AdminError? ==> out.0 == t
    ensures forall k :: k != MIRROR_KEY ==> Current(out.1, k, now) == Current(db, k, now)
  {
    if dbFails then (t, db, AdminError)
    else match t.config
      case None => (t, db, if commitFails then AdminError else StockIs(0))
      case Some(c) =>
        if redisDown then (t, db, AdminError)
        else
          var mirrored := Apply(db, Set(MIRROR_KEY, IntText(c.totalStock)), now).0;
          if commitFails then (t, mirrored, AdminError)
          else (Tables(Some(c.(remainingStock := c.totalStock)), t.events), mirrored, StockIs(c.totalStock))
  }

  /** A reset that answers puts the total back in both stores, after which
      no sync is needed; one whose commit fails leaves Redis ahead of MySQL. */
  lemma ResetMirrors(t: Tables, db: Db<string>, now: Time, dbFails: bool, redisDown: bool, commitFails: bool)
    requires t.config.Some?
    ensures var out := StockReset(t, db, now, dbFails, redisDown, commitFails);
      && (out.2.StockIs? <==> !dbFails && !redisDown && !commitFails)
      && (out.2.StockIs? ==>
            && out.2.stock == t.config.value.totalStock == LockedStock(out.0)
            && MirrorStock(out.1, now) == Some(t.config.value.totalStock)
            && out.0.events == t.events)
      && (!dbFails && !redisDown && commitFails ==>
            out.0 == t && MirrorStock(out.1, now) == Some(t.config.value.totalStock))
      && (out.2.StockIs? ==> forall q, f :: GetStats(out.1, out.0, now, false, false, q, f).value.syncNeeded == false)
  {
    var total := t.config.value.totalStock;
    var mirrored := Apply(db, Set(MIRROR_KEY, IntText(total)), now).0;
    assert Current(mirrored, MIRROR_KEY, now) == Some(Str(IntText(total)));
    PyIntOfIntText(total);
  }

  /** `sync_to_mysql`: the Redis value, read as `get_stats` reads it,
      becomes MySQL's remaining stock. */
  function StockSync(t: Tables, db: Db<string>, now: Time, redisDown: bool, dbFails: bool): (out: (Tables, AdminReply))
    ensures out.0.events == t.events
    ensures out.1.AdminError? ==> out.0 == t
    ensures out.1.StockIs? ==> out.0.config.None? || out.0.config.value.remainingStock == out.1.stock
  {
    if redisDown || MirrorStock(db, now).None? || dbFails then (t, AdminError)
    else
      var v := MirrorStock(db, now).value;
      (if t.config.None? then t else Tables(Some(t.config.value.(remainingStock := v)), t.events), StockIs(v))
  }

  /** After a sync that answers, the two stores agree (when the row exists)
      and the reported stock is what Redis held, 0 for a missing key. */
  lemma SyncAligns(t: Tables, db: Db<string>, now: Time, redisDown: bool, dbFails: bool)
    ensures var out := StockSync(t, db, now, redisDown, dbFails);
      && (out.1.StockIs? <==> !redisDown && !dbFails && MirrorStock(db, now).Some?)
      && (out.1.StockIs? ==> out.1.stock == MirrorStock(db, now).value)
      && (out.1.StockIs? && Current(db, MIRROR_KEY, now).None? ==> out.1.stock == 0)
      && (out.1.StockIs? && t.config.Some? ==>
            forall q, f :: GetStats(db, out.0, now, false, false, q, f).value.syncNeeded == false)
      && (out.1.AdminError? ==> out.0 == t)
      && out.0.events == t.events
  {
  }

  /** A mirror padded with a separator `int` does not strip, such as the
      `"\x1c7"` a consumer may copy from an event, makes both `get_stats`
      and `sync_to_mysql` answer 500, and the sync leaves MySQL as it was. */
  lemma PaddedMirrorFails(t: Tables, db: Db<string>, now: Time, dbFails: bool, q: int, f: bool)
    requires Current(db, MIRROR_KEY, now) == Some(Str("\U{1c}7"))
    ensures GetStats(db, t, now, false, false, q, f).None?
    ensures StockSync(t, db, now, false, dbFails) == (t, AdminError)
  {
    MirrorReadsPythonText(db, now, "\U{1c}7");
  }

  /** A grab moves only MySQL, so a success from a synchronised state makes
      `get_stats` report that a sync is needed. */
  lemma GrabDesynchronises(t: Tables, db: Db<string>, userId: string, now: Time, q: int, f: bool)
    requires GetStats(db, t, now, false, false, q, f).Some?
    requires !GetStats(db, t, now, false, false, q, f).value.syncNeeded
    requires Succeeded(SqlGrab(t, userId, now, false).1)
    ensures GetStats(db, SqlGrab(t, userId, now, false).0, now, false, false, q, f).value.syncNeeded
  {
  }

  /** The `event_system` database. */
  class CouponDatabase {
    var tables: Tables

    constructor (config: Option<CouponConfig>)
      ensures tables == Tables(config, [])
    {
      tables := Tables(config, []);
    }
  }

  class SqlProducer {
    const mysql: CouponDatabase
    const redis: RedisStore<string>

    constructor (mysql: CouponDatabase, redis: RedisStore<string>)
      ensures this.mysql == mysql && this.redis == redis
    {
      this.mysql := mysql;
      this.redis := redis;
    }

    /** `grab_coupon`: lock, check, decrement and insert, commit. */
    method GrabCoupon(userId: string, now: Time, dbFails: bool) returns (reply: GrabReply)
      modifies mysql
      ensures (mysql.tables, reply) == SqlGrab(old(mysql.tables), userId, now, dbFails)
    {
      if dbFails {
        return ServerError(DatabaseError);
      }
      var current := LockedStock(mysql.tables);
      if current > 0 {
        var row := mysql.tables.config.value;
        mysql.tables := Tables(Some(row.(remainingStock := row.remainingStock - 1)),
                               mysql.tables.events + [EventRow(userId, current - 1, now)]);
        reply := Outcome(true, current - 1, false);
      } else {
        reply := Outcome(false, 0, false);
      }
    }

    /** `reset_stock` */
    method ResetStock(now: Time, dbFails: bool, redisDown: bool, commitFails: bool) returns (reply: AdminReply)
      modifies mysql, redis
      ensures (mysql.tables, redis.db, reply) == StockReset(old(mysql.tables), old(redis.db), now, dbFails, redisDown, commitFails)
    {
      if dbFails {
        return AdminError;
      }
      var row := mysql.tables.config;
      if row.None? {
        return if commitFails then AdminError else StockIs(0);
      }
      if redisDown {
        return AdminError;
      }
      var _ := redis.Exec(Set(MIRROR_KEY, IntText(row.value.totalStock)), now);
      if commitFails {
        return AdminError;
      }
      mysql.tables := Tables(Some(row.value.(remainingStock := row.value.totalStock)), mysql.tables.events);
      reply := StockIs(row.value.totalStock);
    }

    /** `sync_to_mysql` */
    method SyncToMysql(now: Time, redisDown: bool, dbFails: bool) returns (reply: AdminReply)
      modifies mysql
      ensures (mysql.tables, reply) == StockSync(old(mysql.tables), redis.db, now, redisDown, dbFails)
    {
      if redisDown {
        return AdminError;
      }
      var stock := MirrorStock(redis.db, now);
      if stock.None? || dbFails {
        return AdminError;
      }
      if mysql.tables.config.Some? {
        mysql.tables := Tables(Some(mysql.tables.config.value.(remainingStock := stock.value)), mysql.tables.events);
      }
      reply := StockIs(stock.value);
    }
  }
}
