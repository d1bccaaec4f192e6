/**
 * `CachedCouponService`: the cache-aside read path over a sharding strategy.
 * A user's coupon list is cached in Redis under `user:coupons:{user_id}` as a
 * JSON document; a miss (or a failed read) queries the strategy and rebuilds
 * the entry with a TTL of 60 s for an empty list and 3600 s plus up to 300 s
 * of jitter otherwise. A successful save drops the entry.
 */
module CouponCache {
  import opened Common
  import opened KeyValue
  import opened ShardStore
  import opened HashStrategy

  const CACHE_TTL: int := 3600
  const EMPTY_TTL: int := 60
  const MAX_JITTER: int := 300
  const KEY_PREFIX: string := "user:coupons:"

  /** The entry's key: the prefix, then the user id's decimal text. */
  function CacheKey(userId: int): (key: string)
    ensures |key| > |KEY_PREFIX| && key[..|KEY_PREFIX|] == KEY_PREFIX
  {
    KEY_PREFIX + IntText(userId)
  }

  /** The key names its user: Python's `int` reads the user id back from the
      text after the prefix, so two users never share an entry. */
  lemma CacheKeyNamesUser(a: int, b: int)
    ensures PyInt(CacheKey(a)[|KEY_PREFIX|..]) == Some(a)
    ensures CacheKey(a) == CacheKey(b) <==> a == b
  {
    PyIntOfIntText(a);
    PyIntOfIntText(b);
    assert CacheKey(a)[|KEY_PREFIX|..] == IntText(a);
    assert CacheKey(b)[|KEY_PREFIX|..] == IntText(b);
  }

  /** `get_user_coupons`' pair: the list, and whether it came from Redis. */
  datatype Answer = Answer(coupons: seq<CouponResult>, hit: bool)

  /** The TTL `_rebuild_cache` picks; `jitter` is `random.randint(0, 300)`. */
  function CacheTtl(rs: seq<CouponResult>, jitter: int): (ttl: int)
    ensures rs == [] ==> ttl == 60
    ensures rs != [] && 0 <= jitter <= MAX_JITTER ==> 3600 <= ttl <= 3900
  {
    if rs == [] then EMPTY_TTL else CACHE_TTL + jitter
  }

  /** Whether `json.dumps` accepts the formatted list: `_rebuild_cache` turns
      `grab_time` into text, but a non-NULL `use_time` (a datetime) or
      `order_amount` (a Decimal) stays as it is and `json.dumps` raises
      TypeError on it. An empty list is written as `"[]"` without
      `json.dumps`. */
  predicate Serialisable(rs: seq<CouponResult>): (ok: bool)
    ensures rs == [] ==> ok
    ensures ok <==> forall i :: 0 <= i < |rs| ==> rs[i].useTime.None? && rs[i].orderAmount.None?
  {
    forall x :: x in rs ==> x.useTime.None? && x.orderAmount.None?
  }

  /** `_rebuild_cache`: `None` when `json.dumps` raises, before Redis is
      touched; otherwise SETEX the key to the results' JSON document, unless
      Redis raises, which is swallowed. */
  function Rebuild(db: Db<CouponResult>, key: string, rs: seq<CouponResult>, now: Time, jitter: int, writeFails: bool)
    : (out: Option<Db<CouponResult>>)
    ensures out.Some? <==> Serialisable(rs)
    ensures out.Some? && writeFails ==> out.value == db
  {
    if !Serialisable(rs) then None
    else if writeFails then Some(db)
    else Some(Apply(db, SetEx(key, CacheTtl(rs, jitter), rs), now).0)
  }

  /** The cached list, when the GET succeeds and finds a document. */
  function CachedList(db: Db<CouponResult>, key: string, now: Time, readFails: bool): (r: Option<seq<CouponResult>>)
    ensures r.Some? <==> !readFails && Current(db, key, now).Some? && Current(db, key, now).value.Json?
    ensures r.Some? ==> Current(db, key, now) == Some(Json(r.value))
  {
    if readFails then None
    else match Apply(db, Get(key), now).1
      case Doc(doc) => Some(doc)
      case _ => None
  }

  /** `get_user_coupons`: the Redis data afterwards and the answer; `None`
      when the strategy's query or the rebuild's `json.dumps` raises, and
      then Redis is as it was. */
  function ReadThrough(db: Db<CouponResult>, fixed: bool, tables: seq<seq<Row>>, numShards: int, userId: int,
                       now: Time, readFails: bool, writeFails: bool, jitter: int, health: nat -> ShardFault)
    : (out: (Db<CouponResult>, Option<Answer>))
    ensures out.1.None? ==> out.0 == db
    ensures out.1.Some? && (out.1.value.hit || writeFails) ==> out.0 == db
  {
    var key := CacheKey(userId);
    match CachedList(db, key, now, readFails)
    case Some(doc) => (db, Some(Answer(doc, true)))
    case None =>
      match UserCoupons(fixed, tables, numShards, userId, health)
      case None => (db, None)
      case Some(rs) =>
        match Rebuild(db, key, rs, now, jitter, writeFails)
        case None => (db, None)
        case Some(db') => (db', Some(Answer(rs, false)))
  }

  /** A hit answers from Redis alone: it changes nothing and does not depend
      on the shards. A miss answers exactly what the strategy returned. The
      read raises exactly when it misses and the query raises or returns a
      record `json.dumps` refuses. */
  lemma ReadThroughAnswers(db: Db<CouponResult>, fixed: bool, tables: seq<seq<Row>>, tables': seq<seq<Row>>,
                           numShards: int, userId: int, now: Time, readFails: bool, writeFails: bool, jitter: int,
                           health: nat -> ShardFault)
    ensures var out := ReadThrough(db, fixed, tables, numShards, userId, now, readFails, writeFails, jitter, health);
      && (out.1.Some? && out.1.value.hit ==>
            && out.0 == db
            && Current(db, CacheKey(userId), now) == Some(Json(out.1.value.coupons))
            && out == ReadThrough(db, fixed, tables', numShards, userId, now, readFails, writeFails, jitter, health))
      && (out.1.Some? && !out.1.value.hit ==>
            Some(out.1.value.coupons) == UserCoupons(fixed, tables, numShards, userId, health))
      && (out.1.None? <==> CachedList(db, CacheKey(userId), now, readFails).None?
                           && (UserCoupons(fixed, tables, numShards, userId, health).None?
                               || !Serialisable(UserCoupons(fixed, tables, numShards, userId, health).value)))
  {
  }

  /** A record with a use time or an order amount makes the rebuild raise: a
      user who has used a coupon gets an error on every cache miss. */
  lemma UsedCouponRaises(db: Db<CouponResult>, key: string, rs: seq<CouponResult>, now: Time, jitter: int,
                         writeFails: bool, i: int)
    requires 0 <= i < |rs| && (rs[i].useTime.Some? || rs[i].orderAmount.Some?)
    ensures Rebuild(db, key, rs, now, jitter, writeFails).None?
  {
    assert rs[i] in rs;
  }

  /** Rows whose `use_time` and `order_amount` are NULL, as every insert of
      `save_coupon_result` leaves them, come back as records `json.dumps`
      accepts. */
  lemma NullColumnsSerialise(fixed: bool, tables: seq<seq<Row>>, numShards: int, userId: int,
                             health: nat -> ShardFault)
    requires forall j, row :: 0 <= j < |tables| && row in tables[j] ==> row.useTime.None? && row.orderAmount.None?
    ensures UserCoupons(fixed, tables, numShards, userId, health).Some? ==>
      Serialisable(UserCoupons(fixed, tables, numShards, userId, health).value)
  {
    if UserCoupons(fixed, tables, numShards, userId, health).Some? && numShards != 0 {
      var s := ShardOf(fixed, userId, numShards);
      if !ReadFails(health(s)) {
        var rs := UserCouponsOnShard(tables[s], userId);
        forall x | x in rs
          ensures x.useTime.None? && x.orderAmount.None?
        {
          var row :| row in tables[s] && x == RowToCouponResult(row);
        }
      }
    }
  }

  /** The rebuilt entry holds the results, expires after 60 s when there are
      none and after 3600 to 3900 s otherwise, and no other key changes;
      records `json.dumps` refuses leave no entry at all. */
  lemma RebuildCaches(db: Db<CouponResult>, key: string, rs: seq<CouponResult>, now: Time, jitter: int)
    requires 0 <= jitter <= MAX_JITTER
    ensures !Serialisable(rs) ==> Rebuild(db, key, rs, now, jitter, false) == None
    ensures Serialisable(rs) ==>
      var out := Rebuild(db, key, rs, now, jitter, false).value;
      && Current(out, key, now) == Some(Json(rs))
      && key in out.deadline
      && (rs == [] ==> out.deadline[key] == now + 60)
      && (rs != [] ==> now + 3600 <= out.deadline[key] <= now + 3900)
      && forall k :: k != key ==> Current(out, k, now) == Current(db, k, now)
  {
  }

  /** Within its TTL a rebuilt entry is a hit, whatever the shards now hold;
      an empty result is cached too, so it comes back as an empty hit. */
  lemma HitWithinTtl(db: Db<CouponResult>, fixed: bool, tables: seq<seq<Row>>, tables': seq<seq<Row>>,
                     numShards: int, userId: int, rs: seq<CouponResult>, now: Time, later: Time, jitter: int,
                     writeFails: bool, jitter': int, health: nat -> ShardFault, health': nat -> ShardFault)
    requires 0 <= jitter <= MAX_JITTER
    requires now <= later < now + CacheTtl(rs, jitter)
    ensures var cached := Rebuild(db, CacheKey(userId), rs, now, jitter, false);
      cached.Some? ==>
        ReadThrough(cached.value, fixed, tables', numShards, userId, later, false, writeFails, jitter', health')
          == (cached.value, Some(Answer(rs, true)))
  {
  }

  /** Past its TTL the entry is gone and the next read rebuilds it from the
      strategy, or raises when `json.dumps` refuses what the strategy
      returned. */
  lemma MissAfterTtl(db: Db<CouponResult>, fixed: bool, tables: seq<seq<Row>>, numShards: int, userId: int,
                     rs: seq<CouponResult>, now: Time, later: Time, jitter: int, jitter': int, health: nat -> ShardFault)
    requires 0 <= jitter <= MAX_JITTER
    requires later >= now + CacheTtl(rs, jitter)
    requires UserCoupons(fixed, tables, numShards, userId, health).Some?
    ensures var cached := Rebuild(db, CacheKey(userId), rs, now, jitter, false);
      var rs2 := UserCoupons(fixed, tables, numShards, userId, health).value;
      cached.Some? ==>
        var out := ReadThrough(cached.value, fixed, tables, numShards, userId, later, false, false, jitter', health);
        out.1 == if Serialisable(rs2) then Some(Answer(rs2, false)) else None
  {
    var key := CacheKey(userId);
    var cached := Rebuild(db, key, rs, now, jitter, false);
    if cached.Some? {
      assert cached.value.deadline[key] == now + CacheTtl(rs, jitter);
      assert Current(cached.value, key, later).None?;
      assert CachedList(cached.value, key, later, false).None?;
    }
  }

  /** A list pushed onto the key (the counting consumers LPUSH onto the same
      key) makes the GET fail; the read falls through to the strategy and the
      rebuild overwrites the list with a document, unless `json.dumps`
      raises, which leaves the list in place. */
  lemma ListEntryIsReplaced(db: Db<CouponResult>, fixed: bool, tables: seq<seq<Row>>, numShards: int, userId: int,
                            now: Time, jitter: int, health: nat -> ShardFault)
    requires 0 <= jitter <= MAX_JITTER
    requires Current(db, CacheKey(userId), now).Some? && Current(db, CacheKey(userId), now).value.List?
    requires UserCoupons(fixed, tables, numShards, userId, health).Some?
    ensures var out := ReadThrough(db, fixed, tables, numShards, userId, now, false, false, jitter, health);
      var rs := UserCoupons(fixed, tables, numShards, userId, health).value;
      && out.1 == (if Serialisable(rs) then Some(Answer(rs, false)) else None)
      && Current(out.0, CacheKey(userId), now) == if Serialisable(rs) then Some(Json(rs)) else Current(db, CacheKey(userId), now)
  {
    var key := CacheKey(userId);
    assert Apply(db, Get(key), now).1 == Error;
    assert CachedList(db, key, now, false).None?;
    var rs := UserCoupons(fixed, tables, numShards, userId, health).value;
    var out := ReadThrough(db, fixed, tables, numShards, userId, now, false, false, jitter, health);
    if Serialisable(rs) {
      RebuildCaches(db, key, rs, now, jitter);
      assert out.0 == Rebuild(db, key, rs, now, jitter, false).value;
    } else {
      assert out == (db, None);
    }
  }

  /** Invalidate-on-save: once the save committed and the DEL went through,
      the next read misses and returns the row just written, as long as the
      shards hold only rows with NULL `use_time` and `order_amount`, which
      is all `save_coupon_result` writes. */
  lemma ReadAfterSaveSeesRecord(db: Db<CouponResult>, fixed: bool, tables: seq<seq<Row>>, numShards: int,
                                r: CouponResult, id: int, now: Time, readFails: bool, writeFails: bool, jitter: int,
                                health: nat -> ShardFault)
    requires numShards != 0
    requires 0 <= ShardOf(fixed, r.userId, numShards) < |tables|
    requires health(ShardOf(fixed, r.userId, numShards)) == Healthy
    requires forall j, row :: 0 <= j < |tables| && row in tables[j] ==> row.useTime.None? && row.orderAmount.None?
    ensures var s := ShardOf(fixed, r.userId, numShards);
      var row := NewRow(id, r, StoredFailReason(fixed, r.failReason), now);
      var after := tables[s := tables[s] + [row]];
      var out := ReadThrough(Apply(db, Del(CacheKey(r.userId)), now).0, fixed, after, numShards, r.userId, now,
                             readFails, writeFails, jitter, health);
      && out.1.Some? && !out.1.value.hit && RowToCouponResult(row) in out.1.value.coupons
  {
    var key := CacheKey(r.userId);
    var cleared := Apply(db, Del(key), now).0;
    assert Current(cleared, key, now).None?;
    assert CachedList(cleared, key, now, readFails).None?;
    SaveThenQueryUser(fixed, tables, numShards, r, id, now, health);
    var s := ShardOf(fixed, r.userId, numShards);
    var row := NewRow(id, r, StoredFailReason(fixed, r.failReason), now);
    var after := tables[s := tables[s] + [row]];
    forall j, row': Row | 0 <= j < |after| && row' in after[j]
      ensures row'.useTime.None? && row'.orderAmount.None?
    {
      if j != s || row' in tables[s] {
      } else {
        assert row' == row;
      }
    }
    NullColumnsSerialise(fixed, after, numShards, r.userId, health);
  }

  class CachedCouponService {
    const redis: RedisStore<CouponResult>
    const strategy: HashShardingStrategy

    constructor (redis: RedisStore<CouponResult>, strategy: HashShardingStrategy)
      ensures this.redis == redis && this.strategy == strategy
    {
      this.redis := redis;
      this.strategy := strategy;
    }

    /** `get_user_coupons` */
    method GetUserCoupons(userId: int, now: Time, readFails: bool, writeFails: bool, jitter: int,
                          health: nat -> ShardFault) returns (res: Option<Answer>)
      requires 0 <= jitter <= MAX_JITTER
      modifies redis
      ensures (redis.db, res) == ReadThrough(old(redis.db), strategy.fixed, strategy.db.tables, strategy.numShards,
                                             userId, now, readFails, writeFails, jitter, health)
    {
      ghost var db0 := redis.db;
      var key := CacheKey(userId);
      if !readFails {
        var cached := redis.Exec(Get(key), now);
        assert redis.db == db0;
        if cached.Doc? {
          assert CachedList(db0, key, now, readFails) == Some(cached.doc);
          return Some(Answer(cached.doc, true));
        }
      }
      assert CachedList(db0, key, now, readFails).None?;
      var dbResults := UserCoupons(strategy.fixed, strategy.db.tables, strategy.numShards, userId, health);
      if dbResults.None? {
        return None;
      }
      var rs := RebuildCache(key, dbResults.value, now, jitter, writeFails);
      if rs.None? {
        return None;
      }
      res := Some(Answer(rs.value, false));
    }

    /** `_rebuild_cache`: returns the results it was given, or `None` when
        `json.dumps` raises; Redis is Rebuild's. */
    method RebuildCache(key: string, rs: seq<CouponResult>, now: Time, jitter: int, writeFails: bool)
      returns (out: Option<seq<CouponResult>>)
      requires 0 <= jitter <= MAX_JITTER
      modifies redis
      ensures out == if Serialisable(rs) then Some(rs) else None
      ensures redis.db == match Rebuild(old(redis.db), key, rs, now, jitter, writeFails)
                          case Some(db') => db'
                          case None => old(redis.db)
    {
      if rs != [] && exists x :: x in rs && (x.useTime.Some? || x.orderAmount.Some?) {
        return None;
      }
      var ttl := if rs == [] then EMPTY_TTL else CACHE_TTL + jitter;
      if !writeFails {
        var _ := redis.Exec(SetEx(key, ttl, rs), now);
      }
      out := Some(rs);
    }

    /** `save_coupon`: the strategy's answer (`None`: it raised), and the
        entry dropped exactly when the save succeeded and the DEL went
        through. */
    method SaveCoupon(r: CouponResult, now: Time, fault: ShardFault, delFails: bool) returns (ok: Option<bool>)
      requires strategy.db.Valid()
      modifies strategy.db, redis
      ensures strategy.db.Valid()
      ensures var o := SaveOutcomeOf(strategy.fixed, strategy.numShards, |old(strategy.db.tables)|, r.userId, fault);
        && ok == (if o == Raised then None else Some(o == Saved))
        && Committed(old(strategy.db.tables), old(strategy.db.nextIds), strategy.db.tables, strategy.db.nextIds,
                     SaveShard(strategy.fixed, r.userId, strategy.numShards), r,
                     StoredFailReason(strategy.fixed, r.failReason), now, o == Saved)
        && redis.db == (if o == Saved && !delFails then Apply(old(redis.db), Del(CacheKey(r.userId)), now).0
                        else old(redis.db))
    {
      var o := strategy.Save(r, now, fault);
      if o == Raised {
        return None;
      }
      if o == Saved && !delFails {
        var _ := redis.Exec(Del(CacheKey(r.userId)), now);
      }
      ok := Some(o == Saved);
    }
  }
}
