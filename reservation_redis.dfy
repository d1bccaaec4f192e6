/**
 * The Redis-counter producers: a grab DECRs `coupon:{coupon_id}:stock`,
 * INCRs it back when the result went below zero, publishes the event and,
 * if publishing raises after a success, INCRs the counter back again.
 * `Aws` is the sharded deployment's producer (optional filter of failed
 * grabs); `Improved` has no filter, checks that its client exists, and
 * answers without publishing when it has no queue channel.
 */
module RedisReservation {
  import opened Common
  import opened KeyValue
  import opened GrabApi

  function StockKey(couponId: int): string
  {
    "coupon:" + IntText(couponId) + ":stock"
  }

  const RESET_KEY: string := "coupon:101:stock"
  const RESET_STOCK: string := "100"

  lemma SameSuffix(x: string, y: string, s: string)
    requires x + s == y + s
    ensures x == y
  {
    assert |x| == |y|;
    assert x == (x + s)[..|x|];
    assert y == (y + s)[..|y|];
  }

  /** Each coupon has its own counter. */
  lemma StockKeysDistinct(a: int, b: int)
    requires a != b
    ensures StockKey(a) != StockKey(b)
  {
    if StockKey(a) == StockKey(b) {
      assert "coupon:" + IntText(a) + ":stock" == "coupon:" + (IntText(a) + ":stock");
      assert "coupon:" + IntText(b) + ":stock" == "coupon:" + (IntText(b) + ":stock");
      assert (IntText(a) + ":stock") == StockKey(a)[7..];
      assert (IntText(b) + ":stock") == StockKey(b)[7..];
      SameSuffix(IntText(a), IntText(b), ":stock");
      IntTextInjective(a, b);
    }
  }

  /** What the server-side steps of one call may suffer: the DECR cannot
      reach Redis (or there is no client), a compensating INCR cannot, and
      the publish raises. */
  datatype Faults = Faults(decrDown: bool, restoreDown: bool, publishFails: bool)

  datatype Reservation = Reserved(remaining: int) | SoldOut | StoreFailed

  /** The `try` block around the counter: DECR, and INCR back when the
      result is negative. Any exception there is a StoreFailed. */
  function Reserve(db: Db<string>, key: string, now: Time, decrDown: bool, restoreDown: bool): (out: (Db<string>, Reservation))
    ensures forall k :: k != key ==> Current(out.0, k, now) == Current(db, k, now)
  {
    if decrDown then (db, StoreFailed)
    else
      var d := Apply(db, IncrBy(key, -1), now);
      match d.1
      case Int(n) =>
        if n >= 0 then (d.0, Reserved(n))
        else if restoreDown then (d.0, StoreFailed)
        else
          var u := Apply(d.0, IncrBy(key, 1), now);
          if u.1 == Error then (d.0, StoreFailed) else (u.0, SoldOut)
      case _ => (db, StoreFailed)
  }

  /** The compensating INCR after a failed publish; if it cannot reach
      Redis the request still ends in a 500 and the counter stays down. */
  function Compensate(db: Db<string>, key: string, now: Time, down: bool): (out: Db<string>)
    ensures forall k :: k != key ==> Current(out, k, now) == Current(db, k, now)
  {
    if down then db else Apply(db, IncrBy(key, 1), now).0
  }

  /** A DECR that is answered leaves the counter one lower and returns what
      it now reads; a sold-out reservation puts it back; a failure leaves it
      alone unless the INCR back could not be sent. */
  lemma ReserveCounts(db: Db<string>, key: string, now: Time, decrDown: bool, restoreDown: bool)
    ensures var out := Reserve(db, key, now, decrDown, restoreDown);
      && (out.1.Reserved? ==>
            out.1.remaining == Count(db, key, now) - 1 >= 0 && Count(out.0, key, now) == out.1.remaining)
      && (out.1.SoldOut? ==> Count(db, key, now) <= 0 && Count(out.0, key, now) == Count(db, key, now))
      && (out.1.StoreFailed? ==>
            out.0 == db || (restoreDown && Count(db, key, now) <= 0 && Count(out.0, key, now) == Count(db, key, now) - 1))
  {
    if !decrDown {
      var d := Apply(db, IncrBy(key, -1), now);
      if d.1 != Error {
        IncrCounts(db, key, -1, now);
        DecrIncrRestores(db, key, now);
      }
    }
  }

  datatype Variant =
    | Aws(filter: bool)
    | Improved(clientReady: bool, channelReady: bool)

  datatype GrabRequest = GrabRequest(userId: string, couponId: int, roomId: int)

  /** The counter afterwards, the response, and the event put on the queue. */
  datatype GrabOutcome = GrabOutcome(db: Db<string>, reply: GrabReply, sent: Option<GrabEvent>)

  /** `grab_coupon` */
  function Grab(v: Variant, db: Db<string>, req: GrabRequest, f: Faults, now: Time): (out: GrabOutcome)
    ensures forall k :: k != StockKey(req.couponId) ==> Current(out.db, k, now) == Current(db, k, now)
    ensures out.reply.ServerError? ==> out.sent.None?
  {
    var key := StockKey(req.couponId);
    if v.Improved? && !v.clientReady then GrabOutcome(db, ServerError(NoClient), None)
    else
      var r := Reserve(db, key, now, f.decrDown, f.restoreDown);
      if r.1.StoreFailed? then GrabOutcome(r.0, ServerError(StoreError), None)
      else
        var success := r.1.Reserved?;
        var remaining := if success then r.1.remaining else 0;
        var body := Outcome(success, remaining, false);
        var ev := GrabEvent(req.userId, Some(req.couponId), Some(req.roomId), success, body.reason, remaining, now);
        if v.Aws? && v.filter && !success then GrabOutcome(r.0, body, None)
        else if v.Improved? && !v.channelReady then GrabOutcome(r.0, body, None)
        else if f.publishFails then
          // a compensating INCR that raises inside the `except` ends in a plain 500
          var cause := if success && f.restoreDown then StoreError else QueueError;
          GrabOutcome(if success then Compensate(r.0, key, now, f.restoreDown) else r.0, ServerError(cause), None)
        else GrabOutcome(r.0, body, Some(ev))
  }

  /** A grab touches only its coupon's counter. */
  lemma GrabFrame(v: Variant, db: Db<string>, req: GrabRequest, f: Faults, now: Time, k: string)
    requires k != StockKey(req.couponId)
    ensures Current(Grab(v, db, req, f, now).db, k, now) == Current(db, k, now)
  {
  }

  /** A success takes exactly one unit and reports what is left; every other
      answer reports 0 left. */
  lemma GrabSuccessTakesOne(v: Variant, db: Db<string>, req: GrabRequest, f: Faults, now: Time)
    ensures var out := Grab(v, db, req, f, now);
      var key := StockKey(req.couponId);
      && (Succeeded(out.reply) ==>
            && Count(db, key, now) >= 1
            && out.reply.remainingStock == Count(db, key, now) - 1 == Count(out.db, key, now)
            && out.reply.reason == SUCCESS)
      && (out.reply.Answer? && !out.reply.success ==> out.reply.remainingStock == 0 && out.reply.reason == OUT_OF_STOCK)
      && (out.reply.Answer? ==> out.reply.remainingStock >= 0)
  {
    ReserveCounts(db, StockKey(req.couponId), now, f.decrDown, f.restoreDown);
  }

  /** Sequentially, every answer other than a success leaves the counter as
      it found it, unless a compensating INCR could not reach Redis. */
  lemma GrabFailureRestores(v: Variant, db: Db<string>, req: GrabRequest, f: Faults, now: Time)
    requires !f.restoreDown
    ensures var out := Grab(v, db, req, f, now);
      !Succeeded(out.reply) ==> Count(out.db, StockKey(req.couponId), now) == Count(db, StockKey(req.couponId), now)
  {
    var key := StockKey(req.couponId);
    ReserveCounts(db, key, now, f.decrDown, f.restoreDown);
    var r := Reserve(db, key, now, f.decrDown, f.restoreDown);
    if r.1.Reserved? && f.publishFails {
      IncrCounts(r.0, key, 1, now);
      IntValueExact(IntText(r.1.remaining), r.1.remaining);
    }
  }

  /** Whatever goes wrong, a grab never raises the counter. */
  lemma GrabNeverRaisesCounter(v: Variant, db: Db<string>, req: GrabRequest, f: Faults, now: Time)
    ensures Count(Grab(v, db, req, f, now).db, StockKey(req.couponId), now) <= Count(db, StockKey(req.couponId), now)
  {
    var key := StockKey(req.couponId);
    ReserveCounts(db, key, now, f.decrDown, f.restoreDown);
    var r := Reserve(db, key, now, f.decrDown, f.restoreDown);
    if r.1.Reserved? && f.publishFails && !f.restoreDown {
      IncrCounts(r.0, key, 1, now);
    }
  }

  /** What is published: nothing on a 500, nothing for a filtered failure,
      and otherwise an event agreeing with the response. The improved
      producer, once it has a channel, publishes every answer. */
  lemma GrabPublishes(v: Variant, db: Db<string>, req: GrabRequest, f: Faults, now: Time)
    ensures var out := Grab(v, db, req, f, now);
      && (out.reply.ServerError? ==> out.sent.None?)
      && (v.Aws? && v.filter && out.reply.Answer? && !out.reply.success ==> out.sent.None?)
      && (v.Aws? && !v.filter ==> (out.sent.Some? <==> out.reply.Answer?))
      && (v.Improved? && v.channelReady ==> (out.sent.Some? <==> out.reply.Answer?))
      && (out.sent.Some? ==>
            && out.sent.value.success == out.reply.success && out.sent.value.reason == out.reply.reason
            && out.sent.value.remainingStock == out.reply.remainingStock
            && out.sent.value.userId == req.userId && out.sent.value.couponId == Some(req.couponId)
            && out.sent.value.roomId == Some(req.roomId) && out.sent.value.timestamp == now)
  {
  }

  /** Without a client nothing happens; without a channel a success is
      answered, its event is lost and the unit stays taken. */
  lemma ImprovedWithoutQueue(db: Db<string>, req: GrabRequest, f: Faults, now: Time, channelReady: bool)
    ensures Grab(Improved(false, channelReady), db, req, f, now) == GrabOutcome(db, ServerError(NoClient), None)
    ensures var out := Grab(Improved(true, false), db, req, f, now);
      && out.sent.None?
      && (Succeeded(out.reply) ==> Count(out.db, StockKey(req.couponId), now) == Count(db, StockKey(req.couponId), now) - 1)
  {
    ReserveCounts(db, StockKey(req.couponId), now, f.decrDown, f.restoreDown);
  }

  // ---------------------------------------------------------------------
  // No oversell over a run of requests
  // ---------------------------------------------------------------------

  datatype Attempt = Attempt(req: GrabRequest, faults: Faults, now: Time)

  /** The responses to requests served one after another. */
  function GrabAll(v: Variant, db: Db<string>, attempts: seq<Attempt>): (out: (Db<string>, seq<GrabReply>))
    ensures |out.1| == |attempts|
    decreases |attempts|
  {
    if attempts == [] then (db, [])
    else
      var a := attempts[0];
      var o := Grab(v, db, a.req, a.faults, a.now);
      var rest := GrabAll(v, o.db, attempts[1..]);
      (rest.0, [o.reply] + rest.1)
  }

  /** The successes handed out for coupon `c`. */
  function Granted(attempts: seq<Attempt>, replies: seq<GrabReply>, c: int): nat
    requires |replies| == |attempts|
    decreases |attempts|
  {
    if attempts == [] then 0
    else (if attempts[0].req.couponId == c && Succeeded(replies[0]) then 1 else 0) + Granted(attempts[1..], replies[1..], c)
  }

  function Max0(i: int): nat
  {
    if i < 0 then 0 else i
  }

  /** A counter that was written without a TTL keeps none: INCR and DECR
      never set one. */
  predicate Undated(db: Db<string>, key: string)
  {
    key !in db.deadline
  }

  lemma UndatedCount(db: Db<string>, key: string, t: Time, u: Time)
    requires Undated(db, key)
    ensures Count(db, key, t) == Count(db, key, u)
  {
  }

  lemma GrabKeepsUndated(v: Variant, db: Db<string>, req: GrabRequest, f: Faults, now: Time, key: string)
    requires Undated(db, key)
    ensures Undated(Grab(v, db, req, f, now).db, key)
  {
    var k := StockKey(req.couponId);
    var r := Reserve(db, k, now, f.decrDown, f.restoreDown);
    assert Undated(r.0, key);
    assert Undated(Compensate(r.0, k, now, f.restoreDown), key);
  }

  /** One request hands out coupon `c` only by taking a unit its counter
      held. */
  lemma GrabStep(v: Variant, db: Db<string>, a: Attempt, c: int)
    requires Undated(db, StockKey(c))
    ensures var out := Grab(v, db, a.req, a.faults, a.now);
      && Undated(out.db, StockKey(c))
      && (if a.req.couponId == c && Succeeded(out.reply) then 1 else 0) + Max0(Count(out.db, StockKey(c), a.now))
         <= Max0(Count(db, StockKey(c), a.now))
  {
    GrabKeepsUndated(v, db, a.req, a.faults, a.now, StockKey(c));
    if a.req.couponId == c {
      GrabSuccessTakesOne(v, db, a.req, a.faults, a.now);
      GrabNeverRaisesCounter(v, db, a.req, a.faults, a.now);
    } else {
      StockKeysDistinct(a.req.couponId, c);
      GrabFrame(v, db, a.req, a.faults, a.now, StockKey(c));
    }
  }

  /** Served one at a time, requests never hand out more of coupon `c` than
      its counter held at the start, whatever fails along the way. */
  lemma {:induction false} NoOversell(v: Variant, db: Db<string>, attempts: seq<Attempt>, c: int, t: Time)
    requires Undated(db, StockKey(c))
    ensures var out := GrabAll(v, db, attempts);
      Granted(attempts, out.1, c) + Max0(Count(out.0, StockKey(c), t)) <= Max0(Count(db, StockKey(c), t))
    decreases |attempts|
  {
    if attempts != [] {
      var a := attempts[0];
      var o := Grab(v, db, a.req, a.faults, a.now);
      GrabStep(v, db, a, c);
      UndatedCount(db, StockKey(c), t, a.now);
      UndatedCount(o.db, StockKey(c), t, a.now);
      NoOversell(v, o.db, attempts[1..], c, t);
      var out := GrabAll(v, db, attempts);
      assert out.1[1..] == GrabAll(v, o.db, attempts[1..]).1;
    }
  }

  /** What `/admin/reset` answers: the reset message, the `{"error": "No
      Redis"}` body, or a 500. */
  datatype ResetAnswer = ResetDone | NoRedis | ResetRaised

  /** The producer process: the shared Redis and the queue it publishes to. */
  class RedisProducer {
    const variant: Variant
    const redis: RedisStore<string>
    var published: seq<GrabEvent>

    constructor (variant: Variant, redis: RedisStore<string>)
      ensures this.variant == variant && this.redis == redis && published == []
    {
      this.variant := variant;
      this.redis := redis;
      published := [];
    }

    /** `grab_coupon`, as steps on the server. */
    method GrabCoupon(req: GrabRequest, f: Faults, now: Time) returns (reply: GrabReply)
      modifies this, redis
      ensures var out := Grab(variant, old(redis.db), req, f, now);
        && redis.db == out.db && reply == out.reply
        && published == old(published) + (if out.sent.Some? then [out.sent.value] else [])
    {
      if variant.Improved? && !variant.clientReady {
        return ServerError(NoClient);
      }
      var key := StockKey(req.couponId);
      if f.decrDown {
        return ServerError(StoreError);
      }
      var remaining := redis.Exec(IncrBy(key, -1), now);
      if !remaining.Int? {
        return ServerError(StoreError);
      }
      var success := remaining.n >= 0;
      var current := 0;
      if success {
        current := remaining.n;
      } else {
        if f.restoreDown {
          return ServerError(StoreError);
        }
        var back := redis.Exec(IncrBy(key, 1), now);
        if back == Error {
          return ServerError(StoreError);
        }
      }
      var body := Outcome(success, current, false);
      if (variant.Aws? && variant.filter && !success) || (variant.Improved? && !variant.channelReady) {
        return body;
      }
      if f.publishFails {
        if success {
          if f.restoreDown {
            return ServerError(StoreError);
          }
          var _ := redis.Exec(IncrBy(key, 1), now);
        }
        return ServerError(QueueError);
      }
      published := published + [GrabEvent(req.userId, Some(req.couponId), Some(req.roomId), success, body.reason, current, now)];
      reply := body;
    }

    /** `reset_stock` of the improved producer: SET `coupon:101:stock` to 100.
        `setFails`: the SET raised, which reaches the caller as a 500. */
    method ResetStock(now: Time, setFails: bool) returns (answer: ResetAnswer)
      requires variant.Improved?
      modifies redis
      ensures answer == (if !variant.clientReady then NoRedis else if setFails then ResetRaised else ResetDone)
      ensures redis.db == if answer == ResetDone then Apply(old(redis.db), Set(RESET_KEY, RESET_STOCK), now).0
                          else old(redis.db)
    {
      if !variant.clientReady {
        return NoRedis;
      }
      if setFails {
        return ResetRaised;
      }
      var _ := redis.Exec(Set(RESET_KEY, RESET_STOCK), now);
      answer := ResetDone;
    }
  }

  /** The reset leaves coupon 101 with 100 units and no TTL, and no other
      key changes. */
  lemma ResetRestocks(db: Db<string>, now: Time, t: Time)
    ensures var out := Apply(db, Set(RESET_KEY, RESET_STOCK), now).0;
      && Count(out, StockKey(101), t) == 100 && Undated(out, StockKey(101))
      && forall k :: k != RESET_KEY ==> Current(out, k, now) == Current(db, k, now)
  {
    ResetTexts();
    assert StockKey(101) == RESET_KEY;
    IntValueExact(RESET_STOCK, 100);
  }

  lemma ResetTexts()
    ensures IntText(100) == "100" && IntText(101) == "101"
  {
    assert DigitChar(0) == '0' && DigitChar(1) == '1';
    assert NatText(1) == "1";
    assert NatText(10) == NatText(1) + [DigitChar(0)] == "10";
    assert NatText(100) == NatText(10) + [DigitChar(0)] == "100";
    assert NatText(101) == NatText(10) + [DigitChar(1)] == "101";
  }
}
