/**
 * What the `POST /api/coupon/grab` endpoints of the producers answer and
 * publish.
 */
module GrabApi {
  import opened Common

  const SUCCESS: string := "success"
  const OUT_OF_STOCK: string := "out_of_stock"

  /** Why an endpoint answered with HTTP 500. */
  datatype Failure =
    | StoreError      // the stock counter could not be read or updated
    | QueueError      // publishing to the queue raised
    | NoClient        // the Redis client was never created
    | DatabaseError   // the MySQL transaction failed

  /** The response: a JSON body, or an HTTP 500. `filtered` is set when the
      body says the event was filtered instead of sent. */
  datatype GrabReply =
    | Answer(success: bool, reason: string, remainingStock: int, filtered: bool)
    | ServerError(cause: Failure)

  /** A `coupon_grab` event; the locked-counter producers send no coupon or
      room id. */
  datatype GrabEvent = GrabEvent(userId: string, couponId: Option<int>, roomId: Option<int>,
                                 success: bool, reason: string, remainingStock: int, timestamp: Time)

  predicate Succeeded(r: GrabReply)
  {
    r.Answer? && r.success
  }

  /** The body for a reservation that did or did not succeed. */
  function Outcome(success: bool, remaining: int, filtered: bool): (r: GrabReply)
    ensures r.Answer? && r.success == success && r.remainingStock == remaining && r.filtered == filtered
    ensures r.reason == (if success then SUCCESS else OUT_OF_STOCK)
  {
    Answer(success, if success then SUCCESS else OUT_OF_STOCK, remaining, filtered)
  }
}
