/**
 * The minimal persistence consumer: successful grabs are saved through
 * `HashShardingStrategyAWS(num_shards=4)`, every exception is acknowledged,
 * and only `coupon_grab` messages are settled at all. The module it imports
 * the strategy from, `sharding_strategy_hash_aws`, is taken to hold the class
 * of `hash_strategy_aws.py`.
 */
module FinalConsumer {
  import opened Common
  import opened Events
  import opened ShardStore
  import opened HashStrategy

  /** The record `process_event` hands to the strategy, if it gets that far. */
  function FinalRecord(d: Delivery): (r: Option<CouponResult>)
    ensures r.Some? <==>
      Announced(d) && d.ev.eventType.value == COUPON_GRAB && d.ev.success.Some? && d.ev.success.value.truthy
      && GrabRecord(d.ev).Some?
    ensures r.Some? ==> r == GrabRecord(d.ev)
  {
    if Announced(d) && d.ev.eventType.value == COUPON_GRAB && d.ev.success.Some? && d.ev.success.value.truthy
    then GrabRecord(d.ev)
    else None
  }

  /** `process_event`: the queue action, given how the save ends when there
      is one. */
  function FinalAction(d: Delivery, save: SaveOutcome): (a: QueueAction)
    ensures FinalRecord(d).Some? ==> (a == Nack(false) <==> save == NotSaved)
    ensures FinalRecord(d).Some? && save != NotSaved ==> a == Ack
    ensures !Announced(d) ==> a == Ack
    ensures Announced(d) && d.ev.eventType.value != COUPON_GRAB ==> a == NoAction
    ensures Announced(d) && d.ev.eventType.value == COUPON_GRAB && FinalRecord(d).None? ==> a == Ack
  {
    if !Announced(d) then Ack
    else if d.ev.eventType.value != COUPON_GRAB then NoAction
    else match FinalRecord(d)
      case None => Ack
      case Some(_) => if save == NotSaved then Nack(false) else Ack
  }

  /** No message is ever put back on the queue. */
  lemma FinalNeverRequeues(d: Delivery, save: SaveOutcome)
    ensures FinalAction(d, save) != Nack(true)
  {
  }

  /** A message is rejected only when a save was attempted and returned
      False; a `like`, or any other non-grab event, receives neither ack nor
      nack. */
  lemma FinalRejectsOnlyFailedSaves(d: Delivery, save: SaveOutcome)
    ensures FinalAction(d, save) == Nack(false) <==> FinalRecord(d).Some? && save == NotSaved
    ensures FinalAction(d, save) == NoAction <==> Announced(d) && d.ev.eventType.value != COUPON_GRAB
  {
  }

  class FinalConsumer {
    const strategy: HashShardingStrategy

    constructor (db: ShardDatabases)
      ensures !strategy.fixed && strategy.numShards == 4 && strategy.db == db
    {
      strategy := new HashShardingStrategy(false, 4, db);
    }

    /** `process_event` */
    method Process(d: Delivery, now: Time, fault: ShardFault) returns (action: QueueAction)
      requires strategy.db.Valid()
      modifies strategy.db
      ensures strategy.db.Valid()
      ensures FinalRecord(d).None? ==>
        && action == FinalAction(d, NotSaved)
        && strategy.db.tables == old(strategy.db.tables) && strategy.db.nextIds == old(strategy.db.nextIds)
      ensures FinalRecord(d).Some? ==>
        var r := FinalRecord(d).value;
        var o := SaveOutcomeOf(strategy.fixed, strategy.numShards, |old(strategy.db.tables)|, r.userId, fault);
        && action == FinalAction(d, o)
        && Committed(old(strategy.db.tables), old(strategy.db.nextIds), strategy.db.tables, strategy.db.nextIds,
                     SaveShard(strategy.fixed, r.userId, strategy.numShards), r,
                     StoredFailReason(strategy.fixed, r.failReason), now, o == Saved)
    {
      var record := FinalRecord(d);
      if record.None? {
        return FinalAction(d, NotSaved);
      }
      var o := strategy.Save(record.value, now, fault);
      action := FinalAction(d, o);
    }
  }
}
