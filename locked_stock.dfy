/**
 * The in-process producers: one global `current_stock`, decremented under a
 * lock when positive, and reset to `COUPON_STOCK` by `/admin/reset`. The
 * event is published after the lock is released; if publishing raises, the
 * request fails with a 500 but the unit is not given back. The two
 * deployments differ only in `COUPON_STOCK`.
 */
module LockedStock {
  import opened Common
  import opened GrabApi

  const E1_COUPON_STOCK: nat := 10
  const EXP1_COUPON_STOCK: nat := 90000

  /** The counter afterwards, the response and the event published. */
  datatype LockedOutcome = LockedOutcome(stock: int, reply: GrabReply, sent: Option<GrabEvent>)

  /** `grab_coupon` */
  function LockedGrab(stock: int, filter: bool, userId: string, now: Time, publishFails: bool): (out: LockedOutcome)
    ensures stock - 1 <= out.stock <= stock
    ensures out.sent.Some? ==> out.reply.Answer?
  {
    var success := stock > 0;
    var left := if success then stock - 1 else stock;
    var ev := GrabEvent(userId, None, None, success, if success then SUCCESS else OUT_OF_STOCK, left, now);
    if filter && !success then LockedOutcome(left, Outcome(false, left, true), None)
    else if publishFails then LockedOutcome(left, ServerError(QueueError), None)
    else LockedOutcome(left, Outcome(success, left, false), Some(ev))
  }

  /** A unit is taken exactly when one is left, and then only one; the
      counter never goes below zero. */
  lemma LockedTakesOne(stock: int, filter: bool, userId: string, now: Time, publishFails: bool)
    requires stock >= 0
    ensures var out := LockedGrab(stock, filter, userId, now, publishFails);
      && out.stock >= 0
      && (stock > 0 ==> out.stock == stock - 1)
      && (stock == 0 ==> out.stock == 0)
      && (Succeeded(out.reply) <==> stock > 0 && !publishFails)
      && (out.reply.Answer? ==> out.reply.remainingStock == out.stock && out.reply.filtered == (filter && stock == 0))
  {
  }

  /** A failed publish answers 500 yet keeps the unit: the counter is not
      restored. */
  lemma LockedPublishFailureKeepsUnit(stock: int, filter: bool, userId: string, now: Time)
    requires stock > 0
    ensures LockedGrab(stock, filter, userId, now, true) == LockedOutcome(stock - 1, ServerError(QueueError), None)
  {
  }

  /** What is published: nothing for a filtered failure or a 500, otherwise
      an event that agrees with the response. */
  lemma LockedPublishes(stock: int, filter: bool, userId: string, now: Time, publishFails: bool)
    ensures var out := LockedGrab(stock, filter, userId, now, publishFails);
      && (out.sent.Some? <==> out.reply.Answer? && !out.reply.filtered)
      && (filter && out.reply.Answer? && !out.reply.success ==> out.sent.None?)
      && (out.sent.Some? ==>
            out.sent.value == GrabEvent(userId, None, None, out.reply.success, out.reply.reason, out.reply.remainingStock, now))
  {
  }

  datatype LockedAttempt = LockedAttempt(userId: string, now: Time, publishFails: bool)

  /** The responses to requests served one after another, with the final
      counter. */
  function LockedGrabAll(stock: int, filter: bool, attempts: seq<LockedAttempt>): (out: (int, seq<GrabReply>))
    ensures |out.1| == |attempts|
    decreases |attempts|
  {
    if attempts == [] then (stock, [])
    else
      var a := attempts[0];
      var o := LockedGrab(stock, filter, a.userId, a.now, a.publishFails);
      var rest := LockedGrabAll(o.stock, filter, attempts[1..]);
      (rest.0, [o.reply] + rest.1)
  }

  function Successes(replies: seq<GrabReply>): nat
  {
    if replies == [] then 0 else (if Succeeded(replies[0]) then 1 else 0) + Successes(replies[1..])
  }

  /** Between two resets the successes and what is left never exceed the
      starting stock, and add up to it when no publish fails. */
  lemma {:induction false} LockedNoOversell(stock: int, filter: bool, attempts: seq<LockedAttempt>)
    requires stock >= 0
    ensures var out := LockedGrabAll(stock, filter, attempts);
      && out.0 >= 0
      && Successes(out.1) + out.0 <= stock
      && ((forall i :: 0 <= i < |attempts| ==> !attempts[i].publishFails) ==> Successes(out.1) + out.0 == stock)
    decreases |attempts|
  {
    if attempts != [] {
      var a := attempts[0];
      var o := LockedGrab(stock, filter, a.userId, a.now, a.publishFails);
      LockedTakesOne(stock, filter, a.userId, a.now, a.publishFails);
      LockedNoOversell(o.stock, filter, attempts[1..]);
      var out := LockedGrabAll(stock, filter, attempts);
      assert out.1[1..] == LockedGrabAll(o.stock, filter, attempts[1..]).1;
      if forall i :: 0 <= i < |attempts| ==> !attempts[i].publishFails {
        assert forall i :: 0 <= i < |attempts[1..]| ==> !attempts[1..][i].publishFails by {
          forall i | 0 <= i < |attempts[1..]| ensures !attempts[1..][i].publishFails {
            assert attempts[1..][i] == attempts[i + 1];
          }
        }
        assert !a.publishFails;
      }
    }
  }

  /** With the configured stocks: at most 10 successes between resets in
      one deployment, at most 90000 in the other. */
  lemma ConfiguredStocksBound(filter: bool, attempts: seq<LockedAttempt>)
    ensures Successes(LockedGrabAll(E1_COUPON_STOCK, filter, attempts).1) <= 10
    ensures Successes(LockedGrabAll(EXP1_COUPON_STOCK, filter, attempts).1) <= 90000
  {
    LockedNoOversell(E1_COUPON_STOCK, filter, attempts);
    LockedNoOversell(EXP1_COUPON_STOCK, filter, attempts);
  }

  class LockedProducer {
    const couponStock: nat
    const filterEnabled: bool
    var currentStock: int
    var published: seq<GrabEvent>

    predicate Valid()
      reads this
    {
      0 <= currentStock <= couponStock
    }

    /** Process start: `current_stock = COUPON_STOCK`. */
    constructor (couponStock: nat, filterEnabled: bool)
      ensures Valid()
      ensures this.couponStock == couponStock && this.filterEnabled == filterEnabled
      ensures currentStock == couponStock && published == []
    {
      this.couponStock := couponStock;
      this.filterEnabled := filterEnabled;
      currentStock := couponStock;
      published := [];
    }

    /** `grab_coupon` */
    method GrabCoupon(userId: string, now: Time, publishFails: bool) returns (reply: GrabReply)
      requires Valid()
      modifies this
      ensures Valid()
      ensures var out := LockedGrab(old(currentStock), filterEnabled, userId, now, publishFails);
        && currentStock == out.stock && reply == out.reply
        && published == old(published) + (if out.sent.Some? then [out.sent.value] else [])
    {
      var success := false;
      if currentStock > 0 {
        currentStock := currentStock - 1;
        success := true;
      }
      var reason := if success then SUCCESS else OUT_OF_STOCK;
      if filterEnabled && !success {
        return Outcome(false, currentStock, true);
      }
      if publishFails {
        return ServerError(QueueError);
      }
      published := published + [GrabEvent(userId, None, None, success, reason, currentStock, now)];
      reply := Outcome(success, currentStock, false);
    }

    /** `reset_stock` */
    method ResetStock() returns (stock: int)
      requires Valid()
      modifies this
      ensures Valid()
      ensures currentStock == couponStock && stock == couponStock && published == old(published)
    {
      currentStock := couponStock;
      stock := currentStock;
    }
  }
}
