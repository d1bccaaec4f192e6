/**
 * Shard routing: the hash router of `HashShardingStrategyAWS` and the in-memory
 * demo (`hash(user_id) % num_shards`), the corrected router of
 * `FixedHashStrategy` (`int(user_id) % num_shards`), and the range router of
 * `RangeShardingStrategy` (first interval of a fixed table that holds the
 * room id, otherwise the last shard).
 */
module Routing {
  import opened Common

  /** `hash(user_id) % self.num_shards`; Python raises ZeroDivisionError for
      zero shards, which callers check first. */
  function HashShard(userId: int, numShards: int): (s: int)
    requires numShards != 0
    ensures numShards > 0 ==> 0 <= s < numShards
  {
    PyMod(PyHash(userId), numShards)
  }

  /** `int(user_id) % self.num_shards` */
  function FixedHashShard(userId: int, numShards: int): (s: int)
    requires numShards != 0
    ensures numShards > 0 ==> 0 <= s < numShards
  {
    PyMod(userId, numShards)
  }

  /** For the ids the system issues (non-negative and below 2^61 - 1) the two
      hash routers agree. */
  lemma HashAgreesWithFixed(userId: int, numShards: int)
    requires numShards != 0
    requires 0 <= userId < HASH_MODULUS
    ensures HashShard(userId, numShards) == FixedHashShard(userId, numShards)
  {
  }

  /** They differ on -1, because CPython reserves hash value -1. */
  lemma HashDiffersOnMinusOne()
    ensures HashShard(-1, 4) == 2
    ensures FixedHashShard(-1, 4) == 3
  {
    assert PyHash(-1) == -2;
  }

  /** Ids that differ by a multiple of the shard count share a shard. */
  lemma {:induction false} FixedHashPeriodic(userId: int, numShards: int, k: int)
    requires numShards > 0
    ensures FixedHashShard(userId + k * numShards, numShards) == FixedHashShard(userId, numShards)
  {
    var q := userId / numShards;
    var r := userId % numShards;
    assert userId + k * numShards == (q + k) * numShards + r;
    DivModUnique(userId + k * numShards, numShards, q + k, r);
  }

  /** A decomposition with the remainder in range is the Euclidean one. */
  lemma DivModUnique(a: int, n: int, q: int, r: int)
    requires n > 0 && 0 <= r < n && a == q * n + r
    ensures a % n == r
  {
    var q' := a / n;
    assert a == q' * n + a % n;
    if q' > q {
      MulMonotone(q + 1, q', n);
      assert false;
    } else if q' < q {
      MulMonotone(q' + 1, q, n);
      assert false;
    }
  }

  lemma MulMonotone(x: int, y: int, n: int)
    requires x <= y && n > 0
    ensures x * n <= y * n
  {
    assert y * n - x * n == (y - x) * n;
  }

  // ---------------------------------------------------------------------
  // Range routing
  // ---------------------------------------------------------------------

  /** A closed interval `(min_room, max_room)`. */
  datatype Interval = Interval(lo: int, hi: int) {
    predicate Contains(k: int) { lo <= k <= hi }
  }

  /** `self.shard_ranges` */
  const SHARD_RANGES: seq<Interval> :=
    [Interval(1, 1000), Interval(1001, 2000), Interval(2001, 3000), Interval(3001, 999999)]

  /** Index of the first interval that contains `key`, searching from `from`. */
  function FirstContaining(ranges: seq<Interval>, key: int, from: nat): (r: Option<nat>)
    requires from <= |ranges|
    ensures r.Some? ==> from <= r.value < |ranges| && ranges[r.value].Contains(key)
    ensures r.Some? ==> forall j :: from <= j < r.value ==> !ranges[j].Contains(key)
    ensures r.None? <==> forall j :: from <= j < |ranges| ==> !ranges[j].Contains(key)
    decreases |ranges| - from
  {
    if from == |ranges| then None
    else if ranges[from].Contains(key) then Some(from)
    else FirstContaining(ranges, key, from + 1)
  }

  /** `_get_shard_id(room_id)`: the first matching interval's index, or
      `num_shards - 1` when no interval holds the key. */
  function RangeShard(roomId: int, numShards: int): (s: int)
    ensures s == numShards - 1 || (0 <= s < |SHARD_RANGES| && SHARD_RANGES[s].Contains(roomId))
    ensures 1 <= roomId <= 999999 ==> 0 <= s < |SHARD_RANGES| && SHARD_RANGES[s].Contains(roomId)
  {
    match FirstContaining(SHARD_RANGES, roomId, 0)
    case Some(i) => i
    case None => numShards - 1
  }

  /** The configured table, interval by interval. */
  lemma RangeShardTable(roomId: int, numShards: int)
    ensures 1 <= roomId <= 1000 ==> RangeShard(roomId, numShards) == 0
    ensures 1001 <= roomId <= 2000 ==> RangeShard(roomId, numShards) == 1
    ensures 2001 <= roomId <= 3000 ==> RangeShard(roomId, numShards) == 2
    ensures 3001 <= roomId <= 999999 ==> RangeShard(roomId, numShards) == 3
    ensures (roomId <= 0 || roomId > 999999) ==> RangeShard(roomId, numShards) == numShards - 1
  {
    var r := FirstContaining(SHARD_RANGES, roomId, 0);
    if roomId <= 0 || roomId > 999999 {
      assert forall j :: 0 <= j < 4 ==> !SHARD_RANGES[j].Contains(roomId);
    } else {
      assert SHARD_RANGES[0].Contains(roomId) || SHARD_RANGES[1].Contains(roomId)
          || SHARD_RANGES[2].Contains(roomId) || SHARD_RANGES[3].Contains(roomId);
      assert r.Some?;
      assert r.value < 4;
      assert SHARD_RANGES[r.value].Contains(roomId);
    }
  }

  /** With the four configured shards every room id routes into [0, 4). */
  lemma RangeShardInRange(roomId: int)
    ensures 0 <= RangeShard(roomId, 4) < 4
  {
    RangeShardTable(roomId, 4);
  }

  /** Routing never decreases along the covered key range. */
  lemma RangeShardMonotone(a: int, b: int, numShards: int)
    requires 1 <= a <= b <= 999999
    ensures RangeShard(a, numShards) <= RangeShard(b, numShards)
  {
    RangeShardTable(a, numShards);
    RangeShardTable(b, numShards);
  }

  /** The table holds four intervals whatever `num_shards` says: with two shards
      a room of the third interval routes to shard 2, outside [0, 2). */
  lemma RangeShardIgnoresShardCount()
    ensures RangeShard(2500, 2) == 2
  {
    RangeShardTable(2500, 2);
  }
}
