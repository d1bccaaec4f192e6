# Coupon-grab event pipeline: sharding, persistence and stock reservation

This project models, in Dafny, the core of a coupon flash-sale system built
from FastAPI producers, RabbitMQ consumers, Redis and sharded MySQL:

- **Shard routing** (`routing.dfy`): the hash router `hash(user_id) % n`, with
  CPython's integer hash written out exactly; the fixed router
  `int(user_id) % n`; and the range router over its four configured room
  intervals.
- **The sharded store** (`shard_store.dfy`). The result tables and
  AUTO_INCREMENT counters of each shard are a class. The module also holds
  the INSERT of a save, the SELECTs the queries issue, the shard-by-shard
  fan-out with its skip-or-abort error handling, and `bulk_save` and
  `get_total_records` of the strategy interface. Newest-first merging uses a
  stable descending sort (`sorting.dfy`).
- **The strategies**: `HashShardingStrategyAWS` with its subclass
  `FixedHashStrategy` (`hash_strategy.dfy`), `RangeShardingStrategy`
  (`range_strategy.dfy`), and the in-memory `SimpleHashStrategy`
  (`simple_hash.dfy`). `ShardingManager` (`sharding_manager.dfy`) forwards
  to whichever strategy it holds.
- **The consumers' ack/nack policies**:
  - the read-path consumer (`consumer_read.dfy`);
  - the counting consumer over the hash strategy (`consumer_shared.dfy`);
  - the Redis + MySQL statistics consumer (`consumer_stats.dfy`);
  - the minimal consumer (`consumer_final.dfy`).
- **The producers' stock reservation**:
  - the Redis-counter producers, with DECR and compensating INCR
    (`reservation_redis.dfy`);
  - the locked in-process counter (`locked_stock.dfy`);
  - the MySQL `SELECT ... FOR UPDATE` producer with its Redis mirror and
    sync endpoints (`sql_stock.dfy`).

  All three share the response shapes in `grab_api.dfy`.
- **The cache-aside read path** of `CachedCouponService` (`cache.dfy`),
  over a Redis model (`redis_store.dfy`). That model has typed values,
  deadlines (TTL), canonical integer text, and command sequences that stop at
  the first failure.

External outcomes are parameters of the operations:

- a `ShardFault` per shard (a connect raises, no connection, the statement
  fails, the commit fails);
- booleans for an unreachable Redis, a failed publish or a failed MySQL
  transaction;
- the clock reading `now`;
- the TTL jitter that `random.randint(0, 300)` would draw.

Operations that change state are methods of classes whose `ensures` equate
the result and the new state with a pure function of the old state. The
properties are lemmas about those functions:

- no oversell;
- save-then-query round trips;
- the counter balance, kept or broken;
- no requeue;
- cache hits within the TTL.

## Model

| member | source | states |
|---|---|---|
| Common.RowToCouponResult | exp_1/shared/hash_vs_range_comparison/strategies/hash_strategy_aws.py:150-160 | every column of the row is copied into the record; the id and the grab time become present values |
| Common.RowsToResults | exp_1/shared/hash_vs_range_comparison/strategies/hash_strategy_aws.py:72 | one record per row, in row order; a record is in the result exactly when it converts a row of the input |
| Common.PyHash | exp_1/shared/hash_vs_range_comparison/strategies/hash_strategy_aws.py:28 | CPython's hash of an int is the identity on [0, 2^61-1) and always lies strictly between -(2^61-1) and 2^61-1 |
| Common.PyMod | exp_1/shared/hash_vs_range_comparison/strategies/hash_strategy_aws.py:28 | Python's floor modulo: in [0, b) for a positive divisor and in (b, 0] for a negative one |
| Common.Take | exp_1/shared/hash_vs_range_comparison/strategies/hash_strategy_aws.py:97 | Python's `s[:k]`: a prefix of s of length min(k, |s|) for k >= 0, and max(|s|+k, 0) for a negative k |
| Common.NatText | exp_1/shared/hash_vs_range_comparison/strategies/hash_strategy_aws.py:135 | the decimal digits of a natural: non-empty, all digits, one digit exactly below 10 |
| Common.IntText | exp_1/event_producer_sql_api.py:259-263 | `str` of an int: non-empty, with a leading '-' exactly for negatives |
| Common.NatTextInjective | exp_1/shared/hash_vs_range_comparison/strategies/hash_strategy_aws.py:135 | distinct shard ids give distinct `aws_shard_{i}` labels |
| Common.IntTextInjective | exp_1/shared/event_producer_api_aws.py:124 | distinct ints have distinct decimal spellings, so distinct coupon ids give distinct Redis keys |
| Common.DigitsOfNatText | exp_1/event_producer_sql_api.py:259-263 | the digits of `str(n)` spell n |
| Common.PyInt | exp_1/event_producer_sql_api.py:282 | Python's `int` on a str: it ignores ASCII `\t\n\v\f\r` and space, plus non-ASCII Unicode whitespace, around the number (the separators U+001C to U+001F are not stripped, so `int("\x1c7")` raises), takes an optional sign, then decimal digits with single underscores between them; it raises unless the stripped text ends in a digit, and only a leading `-` gives a negative value |
| Common.PyIntOfIntText | exp_1/event_producer_sql_api.py:282 | Python's `int` reads `str(i)` back as i, for every int i |
| Common.PyIntIgnoresSpace | exp_1/event_producer_sql_api.py:282 | `int` ignores any run of leading and trailing whitespace (ASCII `\t\n\v\f\r` and space, plus non-ASCII Unicode whitespace) around the number |
| Common.PyIntLeadingZero | exp_1/event_producer_sql_api.py:282 | a leading zero changes neither whether `int` accepts a string nor the value it reads |
| Common.PyIntSign | exp_1/event_producer_sql_api.py:282 | a leading `+` leaves the reading unchanged; a leading `-` before an unsigned number reads as its negative |
| Common.PyIntAccepts | exp_1/event_producer_sql_api.py:282 | `int` reads "007" and " 7\n" as 7, "+7" as 7, "1_0" as 10 and "-0" as 0 |
| Common.PyIntRefuses | exp_1/event_producer_sql_api.py:282 | `int` raises on "", " ", "1__0", "_1", "1_" and "7x", and on "\x1c7" and "7\x1f", whose U+001C and U+001F it does not strip |
| Routing.HashShard | exp_1/shared/hash_vs_range_comparison/strategies/hash_strategy_aws.py:26-28 | `hash(user_id) % num_shards` lies in [0, num_shards) for a positive count |
| Routing.FixedHashShard | exp_1/shared/event_consumer_read.py:38-42 | `int(user_id) % num_shards` lies in [0, num_shards) for a positive count |
| Routing.HashAgreesWithFixed | exp_1/shared/event_consumer_read.py:38-42 | for ids in [0, 2^61-1) the fixed router and the hash router choose the same shard |
| Routing.HashDiffersOnMinusOne | exp_1/shared/hash_vs_range_comparison/strategies/hash_strategy_aws.py:28 | with four shards, hash routes user id -1 to shard 2 (hash(-1) is -2) while the fixed router sends it to shard 3 |
| Routing.FixedHashPeriodic | exp_1/shared/event_consumer_read.py:38-42 | ids differing by a multiple of the shard count go to the same shard |
| Routing.FirstContaining | exp_1/shared/hash_vs_range_comparison/strategies/range_strategy.py:49-51 | the index found is the first interval from `from` on that contains the key; None exactly when no later interval contains it |
| Routing.RangeShard | exp_1/shared/hash_vs_range_comparison/strategies/range_strategy.py:41-53 | the shard is an interval that contains the room, or num_shards-1; every room in 1..999999 lands in an interval that contains it |
| Routing.RangeShardTable | exp_1/shared/hash_vs_range_comparison/strategies/range_strategy.py:30-53 | rooms 1-1000, 1001-2000, 2001-3000 and 3001-999999 route to shards 0-3; every other room to num_shards-1 |
| Routing.RangeShardInRange | exp_1/shared/hash_vs_range_comparison/strategies/range_strategy.py:41-53 | with four shards every room id routes into [0, 4) |
| Routing.RangeShardMonotone | exp_1/shared/hash_vs_range_comparison/strategies/range_strategy.py:30-35 | along the covered room range a larger room never routes to a smaller shard |
| Routing.RangeShardIgnoresShardCount | exp_1/shared/hash_vs_range_comparison/strategies/range_strategy.py:30-53 | with num_shards == 2, room 2500 still routes to shard 2: the interval table does not follow the configured count |
| Sorting.InsertDesc | exp_1/shared/hash_vs_range_comparison/strategies/hash_strategy_aws.py:96 | inserting a row adds exactly that row: the length grows by one and the multiset gains it |
| Sorting.InsertDescSorted | exp_1/shared/hash_vs_range_comparison/strategies/hash_strategy_aws.py:96 | inserting into a newest-first list keeps it newest first |
| Sorting.SortDesc | exp_1/shared/hash_vs_range_comparison/strategies/hash_strategy_aws.py:96 | `sort(key=grab_time, reverse=True)` keeps the multiset of rows and the length |
| Sorting.SortDescSorted | exp_1/shared/hash_vs_range_comparison/strategies/hash_strategy_aws.py:96 | the sorted rows are ordered by grab_time, newest first |
| Sorting.SortDescMembers | exp_1/shared/hash_vs_range_comparison/strategies/hash_strategy_aws.py:96 | a row is in the sorted output exactly when it is in the input |
| Sorting.PrefixSorted | exp_1/shared/hash_vs_range_comparison/strategies/hash_strategy_aws.py:96-97 | cutting a newest-first list to `[:limit]` keeps it newest first |
| Sorting.ResultsNewestFirst | exp_1/shared/hash_vs_range_comparison/strategies/hash_strategy_aws.py:68-72 | converting newest-first rows gives newest-first records, each with a time |
| ShardStore.NewRow | exp_1/shared/hash_vs_range_comparison/strategies/hash_strategy_aws.py:38-50 | the inserted row carries the record's user, coupon, room, status and reason, `grab_time or now`, the given id and use_status 0 |
| ShardStore.InsertReadBack | exp_1/shared/hash_vs_range_comparison/strategies/hash_strategy_aws.py:150-160 | reading back a freshly inserted row returns the saved record's columns, with the time defaulted to now |
| ShardStore.ShardDatabases.constructor | exp_1/shared/hash_vs_range_comparison/strategies/init_aws_shards.py:47-66 | the given number of shards, each with an empty result table |
| ShardStore.ShardDatabases.Insert | exp_1/shared/hash_vs_range_comparison/strategies/hash_strategy_aws.py:43-51 | one row with the shard's next id is appended to that shard's table and its counter advances; no other shard changes |
| ShardStore.Stored | exp_1/shared/hash_vs_range_comparison/strategies/hash_strategy_aws.py:31-56 | the tables after one save: the committed INSERT on the routed shard when it saved, unchanged otherwise; the rows held grow by exactly one when it saved |
| ShardStore.Where | exp_1/shared/hash_vs_range_comparison/strategies/hash_strategy_aws.py:66-67 | a WHERE clause keeps exactly the rows that satisfy it, in table order |
| ShardStore.UserRows | exp_1/shared/hash_vs_range_comparison/strategies/hash_strategy_aws.py:65-68 | exactly the table's rows of the user |
| ShardStore.RoomRows | exp_1/shared/hash_vs_range_comparison/strategies/hash_strategy_aws.py:84-88 | only rows of the room, at most LIMIT of them, all of them when LIMIT covers the table; a negative LIMIT is a SQL error |
| ShardStore.TimeRangeRows | exp_1/shared/hash_vs_range_comparison/strategies/hash_strategy_aws.py:108-112 | only rows with grab_time BETWEEN start AND end, at most LIMIT of them, all of them when LIMIT covers the table; a negative LIMIT is an error |
| ShardStore.SortDescMembersAll | exp_1/shared/hash_vs_range_comparison/strategies/hash_strategy_aws.py:96 | every row of the input is in the sorted output and nothing else is |
| ShardStore.FanOutAbortSticky | exp_1/shared/hash_vs_range_comparison/strategies/hash_strategy_aws.py:80-81 | once a shard's connection has raised, the cross-shard loop raises whatever later shards do |
| ShardStore.FanOutOnly | exp_1/shared/hash_vs_range_comparison/strategies/hash_strategy_aws.py:92 | every element of the merged answer came from the answer of a visited shard that was reached and whose statement succeeded |
| ShardStore.FanOutIncludes | exp_1/shared/hash_vs_range_comparison/strategies/hash_strategy_aws.py:82-94 | a shard whose statement succeeded contributes all of its answer, even when other shards' statements failed |
| ShardStore.FanOutQuery | exp_1/shared/hash_vs_range_comparison/strategies/hash_strategy_aws.py:79-94 | the `for shard_id in range(n)` loop with its `extend` produces exactly the fan-out function's answer |
| ShardStore.FanOut | exp_1/shared/hash_vs_range_comparison/strategies/hash_strategy_aws.py:79-94 | a cross-shard query that does not raise visited only configured shards |
| ShardStore.FanOutNoneIff | exp_1/shared/hash_vs_range_comparison/strategies/hash_strategy_aws.py:80-81 | the cross-shard loop raises exactly when some visited shard is unknown or its connection raises |
| ShardStore.FanOutKeeps | exp_1/shared/hash_vs_range_comparison/strategies/hash_strategy_aws.py:92 | a property every shard's answer has is had by the merged answer |
| ShardStore.FanOutLength | exp_1/shared/hash_vs_range_comparison/strategies/hash_strategy_aws.py:92 | the merged answer is no longer than the rows the visited shards hold |
| ShardStore.MergeNewestFirst | exp_1/shared/hash_vs_range_comparison/strategies/hash_strategy_aws.py:96-97 | the merged answer is newest first, at most `limit` long, only converted input rows, and every input row when the limit cuts nothing |
| ShardStore.TimeRangeOrders | exp_1/shared/hash_vs_range_comparison/strategies/hash_strategy_aws.py:99-121 | raises exactly when a shard cannot be connected; otherwise newest first, at most limit records, each inside the window |
| ShardStore.ShardStats | exp_1/shared/hash_vs_range_comparison/strategies/hash_strategy_aws.py:123-145 | raises exactly when some shard cannot be connected |
| ShardStore.ShardStatsShape | exp_1/shared/hash_vs_range_comparison/strategies/hash_strategy_aws.py:126-143 | the stats are exactly one entry per counted shard, in shard order and without repeats: entry k reports shard idx[k]'s rows under `prefix{idx[k]}`, where idx lists, in increasing order, exactly the shards whose count did not fail |
| ShardStore.CountedShards | exp_1/shared/hash_vs_range_comparison/strategies/hash_strategy_aws.py:126-143 | a shard is listed exactly when it is among the first n and its count did not fail; the list is strictly increasing |
| ShardStore.RowsCounted | exp_1/shared/hash_vs_range_comparison/strategies/hash_strategy_aws.py:126-143 | the rows of the counted shards are at most the rows held, and all of them when no count fails |
| ShardStore.TotalRecordsCounted | exp_1/shared/hash_vs_range_comparison/strategies/sharding_interface.py:193-201 | when get_shard_stats answers, every visited shard exists and the total is the number of rows on the shards whose count did not fail |
| ShardStore.ShardStatsAllHealthy | exp_1/shared/hash_vs_range_comparison/strategies/hash_strategy_aws.py:126-143 | when every shard answers there is exactly one entry per shard, entry i reporting shard i's rows |
| ShardStore.RowsHeldMonotone | exp_1/shared/hash_vs_range_comparison/strategies/sharding_interface.py:193-201 | more shards never hold fewer rows |
| ShardStore.RowsHeldAppend | exp_1/shared/hash_vs_range_comparison/strategies/hash_strategy_aws.py:43-51 | appending a row to one shard adds one to the rows held by the shards counted, exactly when that shard is among them |
| ShardStore.RowsHeldBounds | exp_1/shared/hash_vs_range_comparison/strategies/sharding_interface.py:193-201 | no shard holds more rows than all shards together |
| ShardStore.TotalRecordsAppend | exp_1/shared/hash_vs_range_comparison/strategies/sharding_interface.py:200-201 | the sum over stats splits at any entry |
| ShardStore.TotalRecords | exp_1/shared/hash_vs_range_comparison/strategies/sharding_interface.py:200-201 | the sum of counts that are all non-negative is non-negative |
| ShardStore.TotalRecordsAllHealthy | exp_1/shared/hash_vs_range_comparison/strategies/sharding_interface.py:193-201 | with every shard healthy, get_total_records counts every stored row |
| ShardStore.SaveOutcomeAt | exp_1/shared/hash_vs_range_comparison/strategies/hash_strategy_aws.py:31-56 | True exactly for a configured, healthy shard; an exception exactly for an unknown shard, a failed connect or a None connection (rollback on None raises); False otherwise |
| ShardStore.CountSaved | exp_1/shared/hash_vs_range_comparison/strategies/sharding_interface.py:168-182 | `bulk_save` gives None exactly when some save raised, otherwise a count no larger than the batch |
| ShardStore.CountSavedExtremes | exp_1/shared/hash_vs_range_comparison/strategies/sharding_interface.py:168-182 | the count is the whole batch exactly when every save returned True, and zero exactly when none did |
| ShardStore.Outcomes | exp_1/shared/hash_vs_range_comparison/strategies/sharding_interface.py:179-181 | one outcome per record, each the strategy's outcome for that record |
| ShardStore.BulkRun | exp_1/shared/hash_vs_range_comparison/strategies/sharding_interface.py:178-182 | the bulk loop leaves as many shards and counters as it found |
| ShardStore.BulkRunCountFrom | exp_1/shared/hash_vs_range_comparison/strategies/sharding_interface.py:178-182 | the count the bulk loop returns depends only on the saves' outcomes |
| ShardStore.BulkRunCounts | exp_1/shared/hash_vs_range_comparison/strategies/sharding_interface.py:168-182 | `bulk_save` returns the number of saves that returned True, and raises exactly when one of them raised |
| ShardStore.BulkRunAddsRows | exp_1/shared/hash_vs_range_comparison/strategies/sharding_interface.py:178-182 | when the batch does not raise, the rows it added equal the count it returns |
| ShardStore.BulkRunAllSaved | exp_1/shared/hash_vs_range_comparison/strategies/sharding_interface.py:168-182 | a batch whose saves all succeed returns its length and adds every record as one row |
| HashStrategy.ShardOf | exp_1/shared/hash_vs_range_comparison/strategies/hash_strategy_aws.py:26-28 | the router is `hash(user_id) % n`, or `int(user_id) % n` in the fixed subclass; in [0, n) for positive n |
| HashStrategy.SaveShard | exp_1/shared/hash_vs_range_comparison/strategies/hash_strategy_aws.py:31-36 | a save routes to a shard in [0, n) for a positive count, and to no shard when there are none |
| HashStrategy.StoredFailReason | exp_1/shared/event_consumer_read.py:68-76 | the fixed save sends NULL for a missing or empty reason; the base save sends the reason as given |
| HashStrategy.SaveOutcomeOf | exp_1/shared/hash_vs_range_comparison/strategies/hash_strategy_aws.py:31-56 | zero shards raise; otherwise True exactly when the routed shard exists and is healthy; the fixed save turns every other failure into False, the base one raises on connect |
| HashStrategy.UserCoupons | exp_1/shared/hash_vs_range_comparison/strategies/hash_strategy_aws.py:58-75 | raises exactly when the user's shard cannot be connected; [] on a failed statement; otherwise newest first, only the user's records and every row of the user on that shard |
| HashStrategy.UserCouponsOnShard | exp_1/shared/hash_vs_range_comparison/strategies/hash_strategy_aws.py:65-72 | the user's rows of one shard, converted, newest first, all of them |
| HashStrategy.UserCouponsReadsOneShard | exp_1/shared/hash_vs_range_comparison/strategies/hash_strategy_aws.py:58-75 | changing any shard other than the user's does not change the user query's answer |
| HashStrategy.SaveThenQueryUser | exp_1/shared/hash_vs_range_comparison/strategies/hash_strategy_aws.py:31-75 | after a successful save the user's query on a healthy shard returns the row just written |
| HashStrategy.RoomOrders | exp_1/shared/hash_vs_range_comparison/strategies/hash_strategy_aws.py:77-97 | raises exactly when some shard cannot be connected; otherwise newest first, at most limit records, all of the room |
| HashStrategy.RoomOrdersKeepsAnsweringShards | exp_1/shared/hash_vs_range_comparison/strategies/hash_strategy_aws.py:82-96 | with a limit that cuts nothing, every row of the room on a shard that answered is returned, whatever other shards did |
| HashStrategy.HashShardingStrategy.constructor | exp_1/shared/hash_vs_range_comparison/strategies/hash_strategy_aws.py:17-20 | the strategy holds the given shard count, subclass flag and shard databases |
| HashStrategy.HashShardingStrategy.Save | exp_1/shared/hash_vs_range_comparison/strategies/hash_strategy_aws.py:31-56 | the outcome is SaveOutcomeOf, and the tables change by exactly the committed INSERT when it saved |
| HashStrategy.HashShardingStrategy.QueryUserCoupons | exp_1/shared/hash_vs_range_comparison/strategies/hash_strategy_aws.py:58-75 | answers UserCoupons over the current tables |
| HashStrategy.HashShardingStrategy.QueryRoomOrders | exp_1/shared/hash_vs_range_comparison/strategies/hash_strategy_aws.py:77-97 | answers RoomOrders over the current tables |
| HashStrategy.HashShardingStrategy.QueryTimeRangeOrders | exp_1/shared/hash_vs_range_comparison/strategies/hash_strategy_aws.py:99-121 | answers TimeRangeOrders over the current tables |
| HashStrategy.HashShardingStrategy.GetShardStats | exp_1/shared/hash_vs_range_comparison/strategies/hash_strategy_aws.py:123-145 | answers ShardStats with the `aws_shard_` labels |
| HashStrategy.HashShardingStrategy.GetTotalRecords | exp_1/shared/hash_vs_range_comparison/strategies/sharding_interface.py:193-201 | raises exactly when get_shard_stats raises; otherwise the number of rows on the configured shards whose count did not fail |
| HashStrategy.HashShardingStrategy.BulkSave | exp_1/shared/hash_vs_range_comparison/strategies/sharding_interface.py:168-182 | the count and the new tables are those of the bulk loop over the hash saver from the old tables |
| HashStrategy.HashShardingStrategy.StrategyName | exp_1/shared/hash_vs_range_comparison/strategies/hash_strategy_aws.py:147-148 | the name is "Hash Partitioning (AWS RDS)" |
| HashStrategy.HashSaverRoutes | exp_1/shared/hash_vs_range_comparison/strategies/hash_strategy_aws.py:31-56 | a hash save that returns True wrote to a configured shard |
| RangeStrategy.RangeSaveOutcome | exp_1/shared/hash_vs_range_comparison/strategies/range_strategy.py:55-89 | the save's outcome on the room's shard, and True only when that shard exists |
| RangeStrategy.UserCouponsAll | exp_1/shared/hash_vs_range_comparison/strategies/range_strategy.py:91-121 | raises exactly when a shard cannot be connected; otherwise only records of the user |
| RangeStrategy.UserCouponsAllExact | exp_1/shared/hash_vs_range_comparison/strategies/range_strategy.py:91-121 | a record is returned exactly when it is a row of the user on a shard whose statement succeeded |
| RangeStrategy.RoomOrdersOneShard | exp_1/shared/hash_vs_range_comparison/strategies/range_strategy.py:123-150 | raises exactly when the room's shard cannot be connected; [] on a failed statement; otherwise at most limit records of the room, newest first |
| RangeStrategy.SortedRoomRows | exp_1/shared/hash_vs_range_comparison/strategies/range_strategy.py:135-142 | the room's rows of one shard, newest first, cut to limit |
| RangeStrategy.RoomOrdersReadsOneShard | exp_1/shared/hash_vs_range_comparison/strategies/range_strategy.py:123-150 | changing any shard other than the room's does not change the room query's answer |
| RangeStrategy.SaveThenQueryRoom | exp_1/shared/hash_vs_range_comparison/strategies/range_strategy.py:55-150 | after a successful save the room's query on a healthy shard returns the row just written, when the limit is large enough |
| RangeStrategy.RangeShardingStrategy.constructor | exp_1/shared/hash_vs_range_comparison/strategies/range_strategy.py:26-35 | the strategy holds the given shard count and shard databases |
| RangeStrategy.RangeShardingStrategy.Save | exp_1/shared/hash_vs_range_comparison/strategies/range_strategy.py:55-89 | the outcome is RangeSaveOutcome, and the tables change by exactly the committed INSERT on the room's shard when it saved |
| RangeStrategy.RangeShardingStrategy.QueryUserCoupons | exp_1/shared/hash_vs_range_comparison/strategies/range_strategy.py:91-121 | answers UserCouponsAll over the current tables |
| RangeStrategy.RangeShardingStrategy.QueryRoomOrders | exp_1/shared/hash_vs_range_comparison/strategies/range_strategy.py:123-150 | answers RoomOrdersOneShard over the current tables |
| RangeStrategy.RangeShardingStrategy.QueryTimeRangeOrders | exp_1/shared/hash_vs_range_comparison/strategies/range_strategy.py:152-183 | answers TimeRangeOrders over the current tables |
| RangeStrategy.RangeShardingStrategy.GetShardStats | exp_1/shared/hash_vs_range_comparison/strategies/range_strategy.py:185-210 | answers ShardStats with the `shard_` labels |
| RangeStrategy.RangeShardingStrategy.GetTotalRecords | exp_1/shared/hash_vs_range_comparison/strategies/sharding_interface.py:193-201 | raises exactly when get_shard_stats raises; otherwise the number of rows on the configured shards whose count did not fail |
| RangeStrategy.RangeShardingStrategy.BulkSave | exp_1/shared/hash_vs_range_comparison/strategies/sharding_interface.py:168-182 | the count and the new tables are those of the bulk loop over the range saver from the old tables |
| RangeStrategy.RangeShardingStrategy.StrategyName | exp_1/shared/hash_vs_range_comparison/strategies/range_strategy.py:212-213 | the name is "Range Partitioning (by room_id)" |
| RangeStrategy.RangeSaverRoutes | exp_1/shared/hash_vs_range_comparison/strategies/range_strategy.py:55-89 | a range save that returns True wrote to a configured shard |
| SimpleHash.Gather | exp_1/shared/hash_vs_range_comparison/strategies/sharding_interface.py:290-308 | a record is gathered exactly when some shard holds it and it satisfies the filter |
| SimpleHash.SimpleAppend | exp_1/shared/hash_vs_range_comparison/strategies/sharding_interface.py:278-282 | the record is appended to its shard's list; no other list changes |
| SimpleHash.SimpleSaveOutcome | exp_1/shared/hash_vs_range_comparison/strategies/sharding_interface.py:274-282 | never False: True exactly when there are shards and the user's shard is a key, otherwise an exception |
| SimpleHash.SimpleBulkOutcomes | exp_1/shared/hash_vs_range_comparison/strategies/sharding_interface.py:179-181 | one outcome per record, each the in-memory save's outcome |
| SimpleHash.SimpleBulkRun | exp_1/shared/hash_vs_range_comparison/strategies/sharding_interface.py:178-182 | the bulk loop leaves as many shard lists as it found |
| SimpleHash.SimpleBulkRunCountFrom | exp_1/shared/hash_vs_range_comparison/strategies/sharding_interface.py:178-182 | the count the in-memory bulk loop returns depends only on the outcomes |
| SimpleHash.SimpleBulkCounts | exp_1/shared/hash_vs_range_comparison/strategies/sharding_interface.py:168-182 | `bulk_save` returns the number of saves, raising exactly when one of them raises |
| SimpleHash.SimpleBulkAddsRecords | exp_1/shared/hash_vs_range_comparison/strategies/sharding_interface.py:168-182 | when the batch does not raise it returns its length and every record was added |
| SimpleHash.SimpleHashStrategy.constructor | exp_1/shared/hash_vs_range_comparison/strategies/sharding_interface.py:264-266 | the dict is empty and the shard count is the given one |
| SimpleHash.SimpleHashStrategy.Initialize | exp_1/shared/hash_vs_range_comparison/strategies/sharding_interface.py:268-272 | the dict holds num_shards empty lists keyed 0 .. n-1, and initialize returns True |
| SimpleHash.SimpleHashStrategy.Save | exp_1/shared/hash_vs_range_comparison/strategies/sharding_interface.py:278-282 | the outcome is SimpleSaveOutcome, the record is appended to its shard exactly when it saved, and the user's query then finds it |
| SimpleHash.SimpleHashStrategy.QueryUserCoupons | exp_1/shared/hash_vs_range_comparison/strategies/sharding_interface.py:284-288 | raises exactly when the user's shard is not a key; otherwise exactly the records of the user in that shard |
| SimpleHash.SimpleHashStrategy.QueryRoomOrders | exp_1/shared/hash_vs_range_comparison/strategies/sharding_interface.py:290-297 | every shard's records of the room, in shard order, cut to limit; only records of the room, at most limit |
| SimpleHash.SimpleHashStrategy.QueryTimeRangeOrders | exp_1/shared/hash_vs_range_comparison/strategies/sharding_interface.py:299-308 | every shard's records with a time inside [start, end], in shard order, cut to limit |
| SimpleHash.SimpleHashStrategy.GatherLoop | exp_1/shared/hash_vs_range_comparison/strategies/sharding_interface.py:290-297 | the loop over `self.shards.items()` yields exactly Gather |
| SimpleHash.SimpleHashStrategy.GetShardStats | exp_1/shared/hash_vs_range_comparison/strategies/sharding_interface.py:310-321 | one entry per shard, entry i reporting shard i's list length with the fixed demo metrics |
| SimpleHash.SimpleHashStrategy.GetTotalRecords | exp_1/shared/hash_vs_range_comparison/strategies/sharding_interface.py:193-201 | the total is every record held |
| SimpleHash.SimpleHashStrategy.BulkSave | exp_1/shared/hash_vs_range_comparison/strategies/sharding_interface.py:168-182 | the count and the new lists are those of the in-memory bulk loop from the old lists |
| SimpleHash.SimpleHashStrategy.StrategyName | exp_1/shared/hash_vs_range_comparison/strategies/sharding_interface.py:323-324 | the name is "Hash Partitioning (Simple Demo)" |
| SimpleHash.StatsCountHeld | exp_1/shared/hash_vs_range_comparison/strategies/sharding_interface.py:193-201 | the stats' record counts add up to the records held |
| SimpleHash.HeldAfterAppend | exp_1/shared/hash_vs_range_comparison/strategies/sharding_interface.py:278-282 | a save adds exactly one record to the total |
| Manager.ShardingManager.constructor | exp_1/shared/hash_vs_range_comparison/strategies/sharding_interface.py:217-218 | the manager holds the given strategy, or none |
| Manager.ShardingManager.SetStrategy | exp_1/shared/hash_vs_range_comparison/strategies/sharding_interface.py:220-223 | the strategy is stored and initialised: the in-memory one ends with empty lists, the database ones are untouched |
| Manager.ShardingManager.GetStrategy | exp_1/shared/hash_vs_range_comparison/strategies/sharding_interface.py:225-229 | raises exactly when no strategy is set; otherwise the strategy |
| Manager.ShardingManager.Save | exp_1/shared/hash_vs_range_comparison/strategies/sharding_interface.py:233-234 | raises without a strategy; otherwise the held strategy's outcome and effect |
| Manager.ShardingManager.QueryUserCoupons | exp_1/shared/hash_vs_range_comparison/strategies/sharding_interface.py:236-237 | raises without a strategy; otherwise the held strategy's answer |
| Manager.ShardingManager.QueryRoomOrders | exp_1/shared/hash_vs_range_comparison/strategies/sharding_interface.py:239-240 | raises without a strategy; otherwise the held strategy's answer |
| Manager.ShardingManager.QueryTimeRangeOrders | exp_1/shared/hash_vs_range_comparison/strategies/sharding_interface.py:242-245 | raises without a strategy; otherwise the held strategy's answer |
| Manager.ShardingManager.GetShardStats | exp_1/shared/hash_vs_range_comparison/strategies/sharding_interface.py:247-248 | raises without a strategy; otherwise the held strategy's stats |
| Manager.ShardingManager.StrategyName | exp_1/shared/hash_vs_range_comparison/strategies/sharding_interface.py:250-251 | raises without a strategy; otherwise that strategy's name |
| KeyValue.NatValue | exp_1/shared/event_producer_api_aws.py:128-133 | a string reads as the natural n only when it is `str(n)` |
| KeyValue.IntValue | exp_1/shared/event_producer_api_aws.py:128-133 | a string reads as the integer i only when it is `str(i)` |
| KeyValue.IntValueExact | exp_1/shared/event_producer_api_aws.py:128-139 | a string reads as i exactly when it is `str(i)` |
| KeyValue.PyIntExtendsIntValue | exp_1/event_producer_sql_api.py:282 | every string the Redis counters accept as an integer, Python's `int` reads as the same integer |
| KeyValue.NatValueOfText | exp_1/event_producer_sql_api.py:259-263 | `str(n)` reads back as n |
| KeyValue.NatTextReadsBack | exp_1/event_producer_sql_api.py:259-263 | a non-negative int written with `str` reads back as itself |
| KeyValue.NegativeTextReadsBack | exp_1/shared/event_producer_api_aws.py:134-139 | '-' followed by the text of a positive n reads back as -n |
| KeyValue.IntValueOfNegative | exp_1/shared/event_producer_api_aws.py:134-139 | a string starting with '-' reads as the negative of the positive natural that follows, and as nothing otherwise |
| KeyValue.Current | exp_1/shared/event_producer_api_aws.py:128-139 | a key's current value, when there is one, is the stored value |
| KeyValue.Added | exp_1/shared/event_producer_api_aws.py:128-139 | INCRBY on a missing key gives delta; on a decimal string it adds delta; on anything else it is an error |
| KeyValue.Apply | exp_1/shared/event_producer_api_aws.py:128-139 | a command the server or the client refuses changes nothing, and no command changes the value of another key |
| KeyValue.RedisStore.constructor | exp_1/shared/event_producer_api_aws.py:38 | the server starts with no keys and no deadlines |
| KeyValue.RedisStore.Exec | exp_1/shared/event_producer_api_aws.py:128-139 | the server state and the reply are Apply's |
| KeyValue.IncrCounts | exp_1/shared/event_producer_api_aws.py:128-139 | an answered INCRBY adds delta to what the counter reads |
| KeyValue.DecrIncrRestores | exp_1/shared/event_producer_api_aws.py:134-139 | DECR followed by INCR leaves the counter reading what it read before |
| KeyValue.Run | exp_1/shared/event_consumer.py:60-94 | a run that stops, stops at one of its own commands |
| KeyValue.RunStep | exp_1/shared/event_consumer.py:60-94 | a run from index i either stops at i or applies command i and continues |
| Events.IntOrZero | exp_1/shared/event_consumer_read.py:135-142 | `int(event.get(key, 0))`: 0 when the key is missing, otherwise what int makes of the value |
| Events.TopLikeAdd | exp_1/shared/event_consumer.py:88-89 | once the dict `{user_id: timestamp}` is built (the consumers first check that the id can be a dict key), the ZADD on `top_likes` leaves the client only when both the user id and the timestamp are strings or numbers; it then adds the id's text with the score Redis reads from the timestamp; otherwise redis-py refuses it with DataError |
| Events.GrabRecord | exp_1/shared/event_consumer_read.py:135-142 | a record exists exactly when every conversion succeeds; it then carries the event's user, coupon and room ids, status 1, no reason and the event's timestamp |
| GrabApi.Outcome | exp_1/shared/event_producer_api_aws.py:180-185 | the body says success and `success`, or failure and `out_of_stock`, with the given remaining stock |
| ReadConsumer.ReadPlan | exp_1/shared/event_consumer_read.py:125-167 | an unreadable message is rejected; a successful grab with a readable record is saved; a failed grab and a like are acknowledged; other types are left alone |
| ReadConsumer.AfterSave | exp_1/shared/event_consumer_read.py:147-156 | after the save the message is acknowledged unless the save raised |
| ReadConsumer.CacheUpdated | exp_1/shared/event_consumer_read.py:111-123 | update_redis_cache succeeds only when the message names its user and its type |
| ReadConsumer.ReadConsumer.constructor | exp_1/shared/event_consumer_read.py:107 | the consumer uses FixedHashStrategy with four shards |
| ReadConsumer.ReadConsumer.UpdateRedisCache | exp_1/shared/event_consumer_read.py:111-123 | a successful grab DELs `user:coupons:{user_id}`; nothing else changes Redis |
| ReadConsumer.ReadConsumer.Process | exp_1/shared/event_consumer_read.py:125-167 | a settled message changes nothing; a saved grab is inserted, its cache key dropped and the processed count raised, and the action is AfterSave |
| ReadConsumer.ReadNeverRequeues | exp_1/shared/event_consumer_read.py:125-167 | this consumer never asks for redelivery |
| ReadConsumer.ReadWritesOnlySuccessfulGrabs | exp_1/shared/event_consumer_read.py:145-152 | only a successful coupon_grab reaches the store, with grab status 1 |
| SharedConsumer.CacheScript | exp_1/shared/event_consumer.py:60-94 | nothing but a KeyError without user or type; a top like whose user id is a JSON list or object sends only the likes INCR and then raises TypeError; a grab starts with the attempts INCR, then the success INCR, or exactly attempts and failures INCRs for a failure; other types send nothing |
| SharedConsumer.CacheOutcome | exp_1/shared/event_consumer.py:60-94 | a message without user or type raises KeyError before any command is sent; other event types send nothing and succeed; when the first send cannot reach Redis, Redis is unchanged |
| SharedConsumer.SharedPlan | exp_1/shared/event_consumer.py:96-179 | bad JSON is acknowledged, a message without user or type rejected, a successful grab with a readable record saved, a failed grab and a like acknowledged, other types left alone |
| SharedConsumer.AfterSave | exp_1/shared/event_consumer.py:131-138 | acknowledged exactly when the save returned True, otherwise rejected without requeue; the benchmark ticks unless the save raised |
| SharedConsumer.Tick | exp_1/shared/event_consumer.py:150-165 | the benchmark counter stays below TARGET_REQUESTS and returns to 0 exactly on the request before it |
| SharedConsumer.SharedConsumer.constructor | exp_1/shared/event_consumer.py:51-58 | the consumer uses HashShardingStrategyAWS with four shards and starts with zero counts |
| SharedConsumer.SharedConsumer.Send | exp_1/shared/event_consumer.py:60-94 | the command is applied exactly when it reaches the server |
| SharedConsumer.SharedConsumer.UpdateRedisCache | exp_1/shared/event_consumer.py:60-94 | the new Redis state and the ending are CacheOutcome's |
| SharedConsumer.SharedConsumer.UpdateGrabCounters | exp_1/shared/event_consumer.py:70-84 | the grab branch sends exactly CacheScript's commands and stops at the first that fails |
| SharedConsumer.SharedConsumer.UpdateLikeCounters | exp_1/shared/event_consumer.py:86-89 | the like branch sends exactly CacheScript's commands and stops at the first that fails |
| SharedConsumer.SharedConsumer.Process | exp_1/shared/event_consumer.py:96-179 | an exception the cache step does not catch (a KeyError, or the TypeError of an unhashable user id) rejects without saving or ticking; otherwise the action, the benchmark counter, the processed count and the committed save follow SharedPlan and AfterSave |
| SharedConsumer.UnhashableTopLikeRaises | exp_1/shared/event_consumer.py:86-94 | a top like whose user id is a JSON list or object never ends as True; once the likes INCR has succeeded it raises an exception update_redis_cache does not catch, so Process rejects the message; `top_likes` is unchanged |
| SharedConsumer.RefusedTopLikeFails | exp_1/shared/event_consumer.py:86-94 | a top like whose user id is hashable but a JSON `null` or boolean, or whose timestamp is a JSON `null`, boolean, list or object, ends in a RedisError (update_redis_cache returns False), and `top_likes` is unchanged |
| SharedConsumer.TopLikeRecorded | exp_1/shared/event_consumer.py:86-91 | a top like's update completes only when the user id can be a dict key, both values encode and Redis reads the timestamp as a float; `top_likes` then scores the user's id with that value |
| SharedConsumer.CounterKeysDistinct | exp_1/shared/event_consumer.py:70-89 | the attempts, success, failure and coupon-list keys never coincide, even for different users |
| SharedConsumer.OtherKeepsImbalance | exp_1/shared/event_consumer.py:60-94 | a command on none of the three counters leaves attempts - success - failed unchanged |
| SharedConsumer.PairKeepsImbalance | exp_1/shared/event_consumer.py:70-84 | an attempts INCR followed by a success or failure INCR leaves the balance unchanged |
| SharedConsumer.GrabKeepsBalance | exp_1/shared/event_consumer.py:70-84 | when every command of a grab's update reaches the server, attempts == success + failed is kept |
| SharedConsumer.InterruptedGrabUnbalances | exp_1/shared/event_consumer.py:70-94 | when the update stops right after the attempts INCR, the balance grows by one |
| SharedConsumer.TickWraps | exp_1/shared/event_consumer.py:150-165 | the benchmark counter stays below TARGET_REQUESTS, wrapping to 0 from TARGET_REQUESTS-1 and counting up otherwise |
| StatsConsumer.CacheScript | exp_1/event_consumer.py:119-152 | without user or type only a KeyError; a top like whose user id is a JSON list or object sends only the likes INCR and then raises TypeError; a decided grab ends with SET `coupon:stock` to the event's remaining stock, which the client refuses when redis-py cannot encode that value, and raises nothing after |
| StatsConsumer.CacheOutcome | exp_1/event_consumer.py:119-152 | a message without user or type raises KeyError before any command is sent; other event types send nothing and succeed; when the first send cannot reach Redis, Redis is unchanged |
| StatsConsumer.StockMirrorsLastEvent | exp_1/event_consumer.py:137 | when the whole grab update succeeds, the remaining stock was absent or a value redis-py can encode, and `coupon:stock` reads it |
| StatsConsumer.UnhashableTopLikeRaises | exp_1/event_consumer.py:139-152 | a top like whose user id is a JSON list or object never ends as True; once the likes INCR has succeeded it raises an exception update_redis_cache does not catch, so Process requeues the message, counts an error and writes nothing to MySQL; `top_likes` is unchanged |
| StatsConsumer.RefusedTopLikeFails | exp_1/event_consumer.py:139-152 | a top like whose user id is hashable but a JSON `null` or boolean, or whose timestamp is a JSON `null`, boolean, list or object, ends in a RedisError, so Process requeues the message; `top_likes` is unchanged |
| StatsConsumer.TopLikeRecorded | exp_1/event_consumer.py:139-148 | a top like's update completes only when the user id can be a dict key, both values encode and Redis reads the timestamp as a float; `top_likes` then scores the user's id with that value |
| StatsConsumer.RunLast | exp_1/event_consumer.py:119-152 | a completed run whose last command is a SET or a refused command ended with the SET, and that key holds the value set |
| StatsConsumer.Upsert | exp_1/event_consumer.py:68-90 | the user's row gains one attempt and one success or failure (a new row starts at 1); every other row stays |
| StatsConsumer.UpsertKeepsBalance | exp_1/event_consumer.py:68-90 | the upsert keeps attempts == successes + failures for every user |
| StatsConsumer.PlannedWrite | exp_1/event_consumer.py:47-103 | no statements without a type; none needed for other types; a grab write exactly when user, success and timestamp are present, carrying them |
| StatsConsumer.EventDatabase.constructor | exp_1/event_consumer.py:47-117 | the tables start empty |
| StatsConsumer.EventDatabase.Commit | exp_1/event_consumer.py:52-108 | a grab appends its event row and upserts the stats; a like appends its row; nothing else changes |
| StatsConsumer.StatsConsumer.constructor | exp_1/event_consumer.py:41-45 | the consumer starts with zero counts |
| StatsConsumer.StatsConsumer.SaveToMysql | exp_1/event_consumer.py:47-117 | True exactly when the statements exist and the database works; then they are committed, otherwise nothing changes and an error is counted |
| StatsConsumer.StatsConsumer.UpdateRedisCache | exp_1/event_consumer.py:119-152 | the new Redis state and the ending are CacheOutcome's |
| StatsConsumer.StatsConsumer.Send | exp_1/event_consumer.py:119-152 | the command is applied exactly when it reaches the server |
| StatsConsumer.StatsConsumer.UpdateGrabCounters | exp_1/event_consumer.py:128-138 | the grab branch sends CacheScript's commands and stops at the first failure |
| StatsConsumer.StatsConsumer.UpdateLikeCounters | exp_1/event_consumer.py:139-146 | the like branch sends CacheScript's commands and stops at the first failure |
| StatsConsumer.StatsConsumer.Process | exp_1/event_consumer.py:154-185 | bad JSON is acknowledged, a message without user or type requeued; otherwise acknowledged exactly when both the Redis update and the MySQL write succeed, requeued otherwise; a committed grab appends its row to coupon_events and upserts the user's stats, a committed like appends to like_events, and every other table is unchanged (all of them when nothing is written) |
| StatsConsumer.StatsStayBalanced | exp_1/event_consumer.py:68-90 | per-user stats stay balanced whatever messages are committed |
| StatsConsumer.RedeliveryCountsTwice | exp_1/event_consumer.py:174-176 | a requeued grab that was already committed to MySQL is counted as two attempts when delivered again |
| FinalConsumer.FinalRecord | event_consumer_final.py:26-33 | a record is handed to the strategy exactly for a readable successful grab |
| FinalConsumer.FinalAction | event_consumer_final.py:17-49 | a save returning False is rejected, every other settled grab is acknowledged, and non-grab types get no action |
| FinalConsumer.FinalNeverRequeues | event_consumer_final.py:17-49 | no message is ever put back on the queue |
| FinalConsumer.FinalRejectsOnlyFailedSaves | event_consumer_final.py:37-45 | rejected exactly when a save was attempted and returned False; no action exactly for a non-grab type |
| FinalConsumer.FinalConsumer.constructor | event_consumer_final.py:12 | the consumer uses HashShardingStrategyAWS with four shards |
| FinalConsumer.FinalConsumer.Process | event_consumer_final.py:17-49 | the action is FinalAction of the save's outcome, and the tables change by exactly that save |
| RedisReservation.StockKeysDistinct | exp_1/shared/event_producer_api_aws.py:124 | distinct coupon ids use distinct stock keys |
| RedisReservation.Reserve | exp_1/shared/event_producer_api_aws.py:128-142 | the reservation touches only its own key |
| RedisReservation.Compensate | exp_1/shared/event_producer_api_aws.py:174-178 | the compensating INCR touches only its own key |
| RedisReservation.Grab | exp_1/shared/event_producer_api_aws.py:116-185 | a grab touches only its coupon's counter, and nothing is published with a 500 |
| RedisReservation.ReserveCounts | exp_1/shared/event_producer_api_aws.py:128-142 | an answered DECR leaves the counter one lower, a sold-out reservation puts it back, and a failure leaves it alone unless the INCR back could not be sent |
| RedisReservation.GrabFrame | exp_1/shared/event_producer_api_aws.py:116-185 | a grab touches only its coupon's counter |
| RedisReservation.GrabSuccessTakesOne | exp_1/shared/event_producer_api_aws.py:116-185 | a success takes exactly one unit and reports what is left; every other answer reports 0 left |
| RedisReservation.GrabFailureRestores | exp_1/shared/event_producer_api_aws.py:134-178 | every answer other than a success leaves the counter as it found it, unless a compensating INCR could not reach Redis |
| RedisReservation.GrabNeverRaisesCounter | exp_1/shared/event_producer_api_aws.py:116-185 | a grab never raises the counter |
| RedisReservation.GrabPublishes | exp_1/shared/event_producer_api_aws.py:145-173 | nothing is published on a 500 or for a filtered failure; otherwise an event agreeing with the response |
| RedisReservation.ImprovedWithoutQueue | exp_1/shared/event_producer_api_improved.py:108-167 | without a client nothing happens; without a channel a success is answered, its event is lost and the unit stays taken |
| RedisReservation.GrabAll | exp_1/shared/event_producer_api_aws.py:116-185 | one reply per request served in order |
| RedisReservation.GrabKeepsUndated | exp_1/shared/event_producer_api_aws.py:128-139 | a counter without a TTL still has none after a grab |
| RedisReservation.GrabStep | exp_1/shared/event_producer_api_aws.py:116-185 | one request hands out coupon c only by taking a unit its counter held |
| RedisReservation.NoOversell | exp_1/shared/event_producer_api_aws.py:116-185 | requests served one at a time never hand out more of a coupon than its counter held at the start |
| RedisReservation.RedisProducer.constructor | exp_1/shared/event_producer_api_aws.py:116-185 | the producer starts with the given Redis, variant and an empty queue |
| RedisReservation.RedisProducer.GrabCoupon | exp_1/shared/event_producer_api_aws.py:116-185 | the reply, the counter and the published events are exactly Grab's; a failed publish answers "MQ Error", or a plain 500 when its compensating INCR raises |
| RedisReservation.RedisProducer.ResetStock | exp_1/shared/event_producer_api_improved.py:195-201 | without a client, the `No Redis` error body and nothing changes; when the SET raises, a 500 and nothing changes; otherwise SET `coupon:101:stock` to 100 and success |
| RedisReservation.ResetRestocks | exp_1/shared/event_producer_api_improved.py:195-201 | after a reset coupon 101 reads 100 with no TTL, and no other key changes |
| LockedStock.LockedTakesOne | e1/event_producer_api.py:88-95 | a unit is taken exactly when one is left, only one, and the counter never goes below zero |
| LockedStock.LockedPublishFailureKeepsUnit | e1/event_producer_api.py:120-130 | a failed publish answers 500 yet keeps the unit taken |
| LockedStock.LockedPublishes | e1/event_producer_api.py:109-130 | nothing for a filtered failure or a 500; otherwise an event agreeing with the response |
| LockedStock.LockedGrab | e1/event_producer_api.py:77-139 | a grab takes at most one unit, and an event is published only with a JSON answer |
| LockedStock.LockedGrabAll | e1/event_producer_api.py:77-139 | one reply per request served in order |
| LockedStock.LockedNoOversell | e1/event_producer_api.py:77-139 | successes plus what is left never exceed the starting stock, and equal it when no publish fails |
| LockedStock.ConfiguredStocksBound | e1/event_producer_api.py:12 | at most 10 successes between resets in one deployment, at most 90000 in the other |
| LockedStock.LockedProducer.constructor | e1/event_producer_api.py:16 | the counter starts at COUPON_STOCK |
| LockedStock.LockedProducer.GrabCoupon | e1/event_producer_api.py:77-139 | the reply, the counter and the published event are exactly LockedGrab's |
| LockedStock.LockedProducer.ResetStock | e1/event_producer_api.py:186-194 | the counter is back at COUPON_STOCK |
| SqlStock.SqlGrab | exp_1/event_producer_sql_api.py:130-197 | the tables change only with a success; an answer is never filtered and never reports negative stock |
| SqlStock.SqlGrabAtomic | exp_1/event_producer_sql_api.py:130-197 | the decrement and the event row are committed together, exactly when the response is a success |
| SqlStock.SqlGrabAll | exp_1/event_producer_sql_api.py:130-197 | one reply per request served in order |
| SqlStock.SqlNoOversell | exp_1/event_producer_sql_api.py:130-197 | successes and what is left add up to the starting stock, each success adds one event row, and the stock never goes negative |
| SqlStock.MirrorStock | exp_1/event_producer_sql_api.py:281-282 | 0 for a missing or empty value; otherwise what Python's `int` makes of the string, the whitespace it strips (not U+001C to U+001F), a sign, leading zeros and digit underscores included (None: it raises) |
| SqlStock.MirrorReadsPythonText | exp_1/event_producer_sql_api.py:281-282 | a mirror holding text the counters accept reads as that integer, one holding "007" (a consumer may SET the event's raw `remaining_stock`, exp_1/event_consumer.py:137) reads as 7, and one holding "\x1c7" raises |
| SqlStock.GetStats | exp_1/event_producer_sql_api.py:276-317 | a 500 exactly when the Redis read raises, including text `int` refuses; MySQL reports -1 when its read fails; sync_needed exactly when the two stocks differ |
| SqlStock.StockReset | exp_1/event_producer_sql_api.py:235-274 | a reset never touches coupon_events; a failed reset leaves MySQL as it was; Redis changes only at `coupon:stock` |
| SqlStock.ResetMirrors | exp_1/event_producer_sql_api.py:235-274 | a reset that answers puts the total back in both stores and no sync is needed; a failed commit leaves Redis ahead |
| SqlStock.StockSync | exp_1/event_producer_sql_api.py:319-345 | a sync never touches coupon_events; a failed sync leaves MySQL as it was; after one that answers, MySQL's remaining stock is the stock it reports |
| SqlStock.PaddedMirrorFails | exp_1/event_producer_sql_api.py:276-345 | a mirror holding "\x1c7", which `int` refuses, makes both `get_stats` and `sync_to_mysql` answer 500, and the sync changes nothing |
| SqlStock.SyncAligns | exp_1/event_producer_sql_api.py:319-345 | after a sync that answers, the two stores agree and the reported stock is Redis's |
| SqlStock.GrabDesynchronises | exp_1/event_producer_sql_api.py:130-317 | a success from a synchronised state makes get_stats report that a sync is needed |
| SqlStock.CouponDatabase.constructor | exp_1/event_producer_sql_api.py:130-197 | the database holds the given config row and no event rows |
| SqlStock.SqlProducer.constructor | exp_1/event_producer_sql_api.py:130-197 | the producer holds the given database and Redis |
| SqlStock.SqlProducer.GrabCoupon | exp_1/event_producer_sql_api.py:130-197 | the reply and the tables are exactly SqlGrab's |
| SqlStock.SqlProducer.ResetStock | exp_1/event_producer_sql_api.py:235-274 | the reply, the tables and Redis are exactly StockReset's |
| SqlStock.SqlProducer.SyncToMysql | exp_1/event_producer_sql_api.py:319-345 | the reply and the tables are exactly StockSync's |
| CouponCache.CacheKey | exp_1/shared/cached_coupon_service.py:53 | the key is `user:coupons:` followed by the user id's text |
| CouponCache.CacheKeyNamesUser | exp_1/shared/cached_coupon_service.py:53 | `int` reads the user id back from the key, so two users never share an entry |
| CouponCache.CacheTtl | exp_1/shared/cached_coupon_service.py:102-122 | 60 s for an empty list, 3600 to 3900 s otherwise |
| CouponCache.Rebuild | exp_1/shared/cached_coupon_service.py:91-130 | the rebuild raises exactly when `json.dumps` refuses a record (a non-NULL use_time or order_amount), before Redis is touched; a failed SETEX leaves Redis as it was |
| CouponCache.CachedList | exp_1/shared/cached_coupon_service.py:56-60 | a cached list is found exactly when the read does not fail and the key holds a JSON document, and it is that document |
| CouponCache.ReadThrough | exp_1/shared/cached_coupon_service.py:52-68 | a read that raises leaves Redis as it was, and so does a hit or a rebuild whose write fails |
| CouponCache.ReadThroughAnswers | exp_1/shared/cached_coupon_service.py:52-68 | a hit answers from Redis alone and changes nothing; a miss answers exactly what the strategy returned; the read raises exactly when it misses and the query raises or returns a record `json.dumps` refuses |
| CouponCache.Serialisable | exp_1/shared/cached_coupon_service.py:108-120 | `json.dumps` accepts the converted results exactly when no record has a use time or an order amount; an empty list always serialises |
| CouponCache.UsedCouponRaises | exp_1/shared/cached_coupon_service.py:108-119 | a record with a use time or an order amount makes the rebuild raise |
| CouponCache.NullColumnsSerialise | exp_1/shared/cached_coupon_service.py:108-119 | shards whose rows have NULL use_time and order_amount give records `json.dumps` accepts |
| CouponCache.RebuildCaches | exp_1/shared/cached_coupon_service.py:91-130 | records `json.dumps` refuses leave no entry; otherwise the entry holds the results, expires after 60 s when empty and after 3600 to 3900 s otherwise, and no other key changes |
| CouponCache.HitWithinTtl | exp_1/shared/cached_coupon_service.py:52-130 | within its TTL a rebuilt entry is a hit, whatever the shards now hold |
| CouponCache.MissAfterTtl | exp_1/shared/cached_coupon_service.py:52-130 | past its TTL the entry is gone and the next read rebuilds it from the strategy, or raises when `json.dumps` refuses what the strategy returned |
| CouponCache.ListEntryIsReplaced | exp_1/shared/cached_coupon_service.py:52-68 | a list at the key makes the GET fail; the read falls through and the rebuild replaces it, unless `json.dumps` raises, which leaves the list |
| CouponCache.ReadAfterSaveSeesRecord | exp_1/shared/cached_coupon_service.py:71-89 | once the save committed and the DEL went through, the next read misses and returns the row just written, on shards holding only the rows saves write (NULL use_time and order_amount) |
| CouponCache.CachedCouponService.constructor | exp_1/shared/cached_coupon_service.py:38-50 | the service holds the given strategy and Redis |
| CouponCache.CachedCouponService.GetUserCoupons | exp_1/shared/cached_coupon_service.py:52-68 | the answer and Redis are exactly ReadThrough's |
| CouponCache.CachedCouponService.RebuildCache | exp_1/shared/cached_coupon_service.py:91-130 | returns the results it was given, or raises when `json.dumps` refuses one; Redis is Rebuild's |
| CouponCache.CachedCouponService.SaveCoupon | exp_1/shared/cached_coupon_service.py:71-89 | the strategy's outcome; the entry is dropped exactly when the save succeeded and the DEL went through |


## Left out

- Connection pools, `initialize()` of the database strategies, and network, logging, `print`, timing and latency measurements: they are I/O. Connection outcomes are the `ShardFault` parameter.
- Floating-point fields of `ShardingStats` are kept as constants; they are never computed.
- Concurrency is not modelled. That covers parallel consumers, parallel requests on a producer, and the interleaving of DECR and INCR between requests. The no-oversell lemmas serve requests one at a time. In the locked producers, `remaining_stock` is read after the lock is released; sequentially this is the value left by the grab.
- Python's `hash` of an int is deterministic. A description of hash routing as per-process random applies to strings only, so the model follows the code.
- Sorting by `grab_time` is modelled as stable, as Python's `list.sort` is. MySQL's `ORDER BY grab_time DESC` leaves the order of equal times open; the model takes the same stable order.
- `None` connections: the hash and range strategies call `rollback` on a `None` connection in their `except`, which raises again. The model reports this as an exception (`Raised`). The fixed save returns False on a `None` connection.
- The cursor's `close` in the fixed save's `finally` is not modelled: it cannot change what was committed.
- JSON: a message is reduced to its fields, each a `Scalar` recording its text, what `int` and `datetime.fromtimestamp` make of it, its truth value, whether it can be a dict key, whether redis-py can encode it, and what Redis reads from it as a float score. These readings are left abstract: the model does not derive them from the JSON text. Two different JSON spellings of the same id are two different Redis keys, as in the code.
- Cached JSON documents are stored as lists of records, not as text. The ISO formatting of `grab_time` is not modelled.
- A plain string stored at a cache key is a miss in the model. In the code, a string that is not JSON makes `json.loads` raise inside the swallowed `try`, which is the same outcome. A string that is JSON, such as `7`, would come back from `get_user_coupons` as a hit. No modelled component writes such a string at a `user:coupons:` key.
- Redis counters are unbounded integers: the 64-bit range of INCR and DECR is not modelled.
- Common.PyInt: Python's `int` also accepts non-ASCII Unicode decimal digits; the model reads ASCII digits only.
- The statistics consumer's `save_to_mysql` does not close its connection on the error path; resource leaks are not modelled.
- The `like` endpoints, the root and health endpoints, and the lifespan handlers (client creation, queue declaration, initial stock loading) of every producer are left out. So is the `GET /api/coupons` wrapper around `CachedCouponService`. The fields `like` events carry are modelled in the consumers.
- `reset_stock` of the AWS Redis producer is not modelled; only the improved producer's reset is.
- The MySQL producer's `UnboundLocalError` when the connection itself cannot be created is folded into the `DatabaseError` answer (`dbFails`).
- StatsConsumer.Process: MySQL rows keyed by `user_id` use the message's `Scalar` as the key. This is a modelling choice: the `user_stats` schema is not part of this model, and with a BIGINT column MySQL would merge spellings such as `123`, `123.0` and `"0123"` that the model keeps apart.
- `CachedCouponService` is modelled over the hash strategy only (the base or the fixed router); the range strategy's user query is not cached in this model.
- `CouponResult` defaults (`fail_reason`, `remaining_stock`, `result_id`) are `None`, modelled as `Option`.
- `event_consumer_final.py` imports `HashShardingStrategyAWS` from a module `sharding_strategy_hash_aws`, which is not part of this model. It is taken to hold the class of `hash_strategy_aws.py`, which the other two consumers import directly.
- ShardStore.BulkRun: it applies a save only when the routed shard lies in range (`0 <= shard`). This guard is a proof device: it never suppresses a write, because a save that returns True has already routed to a configured shard (`Routes`).
- Manager.ShardingManager.SetStrategy: `initialize()` of the database strategies opens connections and its result is ignored; its state change is not modelled.
