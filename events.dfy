/**
 * The messages the producers publish and the consumers decode: a JSON object
 * whose fields are read with `event[key]` (a missing key raises KeyError) or
 * `event.get(key, default)`, and converted with `int(...)`,
 * `datetime.fromtimestamp(...)`, `str(...)` or a truth test.
 */
module Events {
  import opened Common
  import KeyValue

  /** A JSON value as the Python code sees it: its `str`, what `int` makes
      of it (`None`: raises), what `datetime.fromtimestamp` makes of it
      (`None`: raises), its truth value, whether it can be a dict key (a
      list or an object cannot: TypeError), whether redis-py's encoder
      accepts it as a command argument (a string or a number; `null`, a
      boolean, a list or an object raise DataError), and what Redis reads as
      a float score from the text it is sent (`None`: "not a valid float"). */
  datatype Scalar = Scalar(text: string, asInt: Option<int>, asTime: Option<Time>, truthy: bool,
                           hashable: bool, encodable: bool, asScore: Option<Time>)

  /** A decoded message object; each field is `None` when its key is missing. */
  datatype Event = Event(
    eventType: Option<string>,
    userId: Option<Scalar>,
    success: Option<Scalar>,
    couponId: Option<Scalar>,
    roomId: Option<Scalar>,
    timestamp: Option<Scalar>,
    remainingStock: Option<Scalar>,
    reason: Option<Scalar>,
    isTopLike: Option<Scalar>)

  /** A message body: not JSON at all (JSONDecodeError), JSON that is not an
      object (subscripting it raises TypeError), or an object. */
  datatype Delivery = Undecodable | NotAnObject | Decoded(ev: Event)

  const COUPON_GRAB: string := "coupon_grab"
  const LIKE: string := "like"

  /** The log line every consumer prints first reads `event['event_type']` and
      `event['user_id']`, so a message lacking either raises at once. */
  predicate Announced(d: Delivery)
  {
    d.Decoded? && d.ev.eventType.Some? && d.ev.userId.Some?
  }

  /** `int(event.get(key, 0))` */
  function IntOrZero(f: Option<Scalar>): (r: Option<int>)
    ensures f.None? ==> r == Some(0)
    ensures f.Some? ==> r == f.value.asInt
  {
    if f.None? then Some(0) else f.value.asInt
  }

  /** The `CouponResult` the consumers build from a successful grab, or
      `None` when one of the conversions raises or a required key is missing. */
  function GrabRecord(ev: Event): (r: Option<CouponResult>)
    ensures r.Some? <==>
      && ev.userId.Some? && ev.userId.value.asInt.Some?
      && IntOrZero(ev.couponId).Some? && IntOrZero(ev.roomId).Some?
      && ev.timestamp.Some? && ev.timestamp.value.asTime.Some?
    ensures r.Some? ==>
      && r.value.userId == ev.userId.value.asInt.value
      && r.value.couponId == IntOrZero(ev.couponId).value
      && r.value.roomId == IntOrZero(ev.roomId).value
      && r.value.grabStatus == 1 && r.value.failReason.None?
      && r.value.grabTime == Some(ev.timestamp.value.asTime.value)
      && r.value.resultId.None? && r.value.useStatus == 0
  {
    if ev.userId.Some? && ev.userId.value.asInt.Some?
       && IntOrZero(ev.couponId).Some? && IntOrZero(ev.roomId).Some?
       && ev.timestamp.Some? && ev.timestamp.value.asTime.Some?
    then Some(NewResult(ev.userId.value.asInt.value, IntOrZero(ev.couponId).value, IntOrZero(ev.roomId).value,
                        1, None, Some(ev.timestamp.value.asTime.value)))
    else None
  }

  const TOP_LIKES: string := "top_likes"

  /** `zadd("top_likes", {user_id: event['timestamp']})` as the client issues
      it once the dict is built (which needs a hashable user id): refused
      with DataError unless both the member and the score encode,
      and otherwise a ZADD of the id's text whose score Redis may still
      refuse. */
  function TopLikeAdd<T>(userId: Scalar, timestamp: Scalar): (c: KeyValue.Cmd<T>)
    ensures c.key == TOP_LIKES
    ensures c.Refused? <==> !userId.encodable || !timestamp.encodable
    ensures !c.Refused? ==> c == KeyValue.ZAdd(TOP_LIKES, userId.text, timestamp.asScore)
  {
    if userId.encodable && timestamp.encodable then KeyValue.ZAdd(TOP_LIKES, userId.text, timestamp.asScore)
    else KeyValue.Refused(TOP_LIKES)
  }

  /** The Redis key `prefix{user_id}`, with `user_id` as the message spells it. */
  function UserKey(prefix: string, userId: Scalar): string
  {
    prefix + userId.text
  }
}
