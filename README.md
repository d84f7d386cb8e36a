# hm-dianping in Dafny

A model of the Redis-backed core of hm-dianping, a shop-review and flash-sale web service written in Java with Spring. The model covers these parts:

- **`CacheClient`**: cache-aside queries with a null marker or a logically expired envelope.
- **Shop service**: the same decisions in `ShopServiceImpl`, plus a spin-lock query and shop updates.
- **`SimpleRedisLock`**: the owner-token lock.
- **`RedisIdWorker`**: the 64-bit order id generator.
- **Flash sale** (`VoucherOrderServiceImpl`): admission replies, the one-order-per-user stock decrement, and the stream consumer's acknowledgement discipline.
- **User service**: the phone-code login and the monthly sign-in bitmap.
- **Blog service**: the like toggle and the follow-feed scroll cursor.

The store is one class, `Redis.Store`, with the state of the Redis commands the services use:

- string keys with an expiry instant;
- hashes;
- bitmaps;
- sorted sets.

Time is a `nat` of milliseconds passed to every operation. A value is live while its expiry instant is later than `now`.

Each service keeps its own rows as fields of its class:

- shops;
- vouchers and orders;
- users;
- blogs.

Every operation is modelled twice:

1. A **function** over plain values is its specification. The lemmas are proved about it.
2. A **method** of the service's class calls the store commands in the order the Java code does. Its `ensures` ties the new state and the reply to that function.

JSON is modelled by shape, not by text:

- A cached value is plain text, the JSON of a row (`Json`), the JSON of a `RedisData` envelope (`Envelope`), or a counter (`Num`).
- Decoding the JSON of a row gives the row back.
- `toBean` skips the keys the target class does not have. So decoding an envelope as a row gives the empty bean (`Redis.EMPTY_BEAN`: a null id and no columns), and decoding the JSON of a row as an envelope gives an envelope whose two fields are null, which then throws when its expiry is read. `queryWithMutex` reads the hot key that `saveShop2Redis` fills with envelopes, so it can meet the first case.

Two behaviours of the code that look unintended are modelled as they are written:

- The spin lock in `queryWithMutex` deletes the lock key in its `finally` even when it lost the lock. So a loser frees the winner's lock (`ShopService.LoserRebuildsDuringWinnersLease`).
- The follow-feed scan starts `minTime` at 0, so a page whose scores are all 0 counts one entry too many (`BlogService.SkipCount`).

The key prefixes and TTLs come from the class `RedisConstants`, which is not part of this model. They take the values the upstream project uses:

| constant | value |
|---|---|
| `CACHE_SHOP_KEY` | `"cache:shop:"` |
| `CACHE_SHOP_TTL` | 30 min |
| `CACHE_NULL_TTL` | 2 min |
| `LOCK_SHOP_KEY` | `"lock:shop:"` |
| `LOGIN_CODE_KEY` | `"login:code:"` |
| `LOGIN_CODE_TTL` | 2 min |
| `LOGIN_USER_KEY` | `"login:token:"` |
| `LOGIN_USER_TTL` | 36000 min |
| `USER_SIGN_KEY` | `"sign:"` |
| `FEED_KEY` | `"feed:"` |
| `USER_NICK_NAME_PREFIX` | `"user_"` |

`CACHE_HOT_KEY` is taken as `"cache:hot:"`; the proofs only need it to differ from the other prefixes.

## Model

| member | source | states |
|---|---|---|
| CacheClient.DecodeBean | src/main/java/com/hmdp/utils/CacheClient.java:76-81 | the JSON of a row decodes to that row, the JSON of an envelope to the empty bean, and any other non-blank text makes toBean throw |
| CacheClient.PassThroughStep | src/main/java/com/hmdp/utils/CacheClient.java:73-105 | the database is called iff the key is absent or expired; a present key is never written |
| CacheClient.PassThroughMiss | src/main/java/com/hmdp/utils/CacheClient.java:90-104 | on a miss a found row is cached as JSON with the caller's TTL and returned, a missing row is cached as "" for two minutes and null is returned, and an exception writes nothing |
| CacheClient.PassThroughHit | src/main/java/com/hmdp/utils/CacheClient.java:76-87 | a hit calls no database and writes nothing; a blank marker answers null, a row's JSON answers that row and an envelope's JSON the empty bean |
| CacheClient.NullMarkerShieldsDatabase | src/main/java/com/hmdp/utils/CacheClient.java:84-98 | after a lookup found no row, every query of that id within CACHE_NULL_TTL answers null without calling any database callback |
| CacheClient.CachedRowServed | src/main/java/com/hmdp/utils/CacheClient.java:76-104 | a row cached by a miss is served unchanged, with no database call, until its TTL ends |
| CacheClient.EnvelopeAt | src/main/java/com/hmdp/utils/CacheClient.java:197-207 | getWithLogicalExpire is null exactly for an absent or blank key, and an envelope with an expiry is the one stored |
| CacheClient.DoubleCheckStep | src/main/java/com/hmdp/utils/CacheClient.java:156-182 | the winner's second read writes nothing (so its early returns keep the lock) and submits a rebuild iff the envelope is still expired |
| CacheClient.RebuildOnlyByLockWinner | src/main/java/com/hmdp/utils/CacheClient.java:135-192 | a rebuild is submitted iff the envelope has expired and the lock is free; the winner takes "lock:shop:"+id for 10 s and answers the stale data; every other call writes nothing |
| CacheClient.LogicalStep | src/main/java/com/hmdp/utils/CacheClient.java:122-193 | an absent or blank key answers null; an expired envelope whose lock another caller holds answers its stale data; neither writes a key or submits a rebuild |
| CacheClient.FreshEnvelopeServed | src/main/java/com/hmdp/utils/CacheClient.java:143-146 | an unexpired envelope is answered as it is, with no lock and no rebuild |
| CacheClient.SingleRebuildPerLease | src/main/java/com/hmdp/utils/CacheClient.java:150-154 | during the lock's 10 s, no call for the same id, under any prefix, submits another rebuild or writes anything |
| CacheClient.RebuildStep | src/main/java/com/hmdp/utils/CacheClient.java:170-182 | the rebuild writes the envelope with expiry now + unit.toSeconds(time) and no TTL, also when the row is null; an exception writes no envelope; the lock is deleted in every case |
| CacheClient.PrefixesKeepKeysApart | src/main/java/com/hmdp/utils/CacheClient.java:124-151 | the same id under two different prefixes gives two different keys |
| CacheClient.RebuildRefreshes | src/main/java/com/hmdp/utils/CacheClient.java:51-58 | after a rebuild, queries answer the new row with no further rebuild until the new expiry |
| CacheClient.DoubleCheckSeesConcurrentRebuild | src/main/java/com/hmdp/utils/CacheClient.java:156-167 | if another rebuild finished before the lock was won, the double-check answers the new row and submits nothing, but the lock stays held |
| CacheClient.CacheClient.Set | src/main/java/com/hmdp/utils/CacheClient.java:40-42 | stores the row's JSON with the TTL, after which it reads as absent |
| CacheClient.CacheClient.SetWithLogicalExpire | src/main/java/com/hmdp/utils/CacheClient.java:51-58 | stores the envelope with expiry now + unit.toSeconds(time) and no TTL, so the key never expires |
| CacheClient.CacheClient.QueryWithPassThrough | src/main/java/com/hmdp/utils/CacheClient.java:73-105 | the reply, the database call and the new keys are those of PassThroughStep |
| CacheClient.CacheClient.GetWithLogicalExpire | src/main/java/com/hmdp/utils/CacheClient.java:197-207 | answers EnvelopeAt and writes nothing |
| CacheClient.CacheClient.QueryWithLogicalExpire | src/main/java/com/hmdp/utils/CacheClient.java:122-193 | the reply, the submitted task and the new keys are those of LogicalStep |
| CacheClient.CacheClient.DoubleCheck | src/main/java/com/hmdp/utils/CacheClient.java:156-182 | the second read, as DoubleCheckStep |
| CacheClient.CacheClient.RunRebuild | src/main/java/com/hmdp/utils/CacheClient.java:170-182 | the executor task fails iff the database call throws, and leaves the keys of RebuildStep |
| CacheClient.CacheClient.TryLock | src/main/java/com/hmdp/utils/CacheClient.java:215-220 | succeeds iff the key is absent, and then stores "1" for 10 s |
| CacheClient.CacheClient.Unlock | src/main/java/com/hmdp/utils/CacheClient.java:222-224 | deletes the key whoever set it |
| ShopService.ShopRow | src/main/java/com/hmdp/service/impl/ShopServiceImpl.java:61 | getById finds a row exactly for the ids in the table |
| ShopService.ShopReply | src/main/java/com/hmdp/service/impl/ShopServiceImpl.java:61-67 | fail("店铺不存在！") iff the lookup returned null; ok(shop) otherwise; an exception propagates |
| ShopService.MutexRound | src/main/java/com/hmdp/service/impl/ShopServiceImpl.java:149-204 | a round retries iff the key is absent and the lock is held; a hit writes nothing; a miss ends with the lock key deleted |
| ShopService.MutexLoop | src/main/java/com/hmdp/service/impl/ShopServiceImpl.java:149-204 | the spin loop runs MutexRound until a round ends; after each lost round the next interleaved step runs, the lock key is deleted and now advances by 50 ms. A hit on the first round leaves every key as it was; a lookup that starts with a miss ends with the lock key deleted, however many rounds it lost and whatever other threads did |
| ShopService.LoserRebuildsDuringWinnersLease | src/main/java/com/hmdp/service/impl/ShopServiceImpl.java:171-199 | a caller that lost the lock deletes it in finally, then wins it on its next round and queries the database while the winner's lease still runs |
| ShopService.MutexHitSkipsDatabase | src/main/java/com/hmdp/service/impl/ShopServiceImpl.java:154-165 | a present key ends the loop in one round with no write: blank answers null, a shop's JSON answers that shop, and an envelope left by saveShop2Redis answers the empty bean |
| ShopService.MutexWinnerCaches | src/main/java/com/hmdp/service/impl/ShopServiceImpl.java:181-202 | the winner caches the shop for 30 min, or "" for 2 min when there is no row, answers accordingly and deletes the lock |
| ShopService.UpdateStep | src/main/java/com/hmdp/service/impl/ShopServiceImpl.java:283-294 | a null id fails and changes nothing; otherwise the reply is ok, the row with that id (if any) gets the new columns, no row is added or removed, other rows are kept, and exactly the key "cache:shop:"+id is deleted |
| ShopService.UpdateLeavesHotEntryStale | src/main/java/com/hmdp/service/impl/ShopServiceImpl.java:284-293 | update leaves the hot envelope in place, so while it is unexpired queryById keeps answering the old row |
| ShopService.ShopService.QueryById | src/main/java/com/hmdp/service/impl/ShopServiceImpl.java:48-68 | the reply is ShopReply of CacheClient's logical-expiry query on the hot key with a 10 s rebuild, and the keys are those of LogicalStep |
| ShopService.ShopService.RunHotRebuild | src/main/java/com/hmdp/service/impl/ShopServiceImpl.java:61 | the rebuild queryById submitted, run against the table: it never throws and leaves the keys of RebuildStep |
| ShopService.ShopService.QueryWithLogicalExpire | src/main/java/com/hmdp/service/impl/ShopServiceImpl.java:74-146 | the class's own copy makes the same decision as CacheClient with a 20 s rebuild |
| ShopService.ShopService.DoubleCheck | src/main/java/com/hmdp/service/impl/ShopServiceImpl.java:100-124 | the lock winner's second read, as DoubleCheckStep |
| ShopService.ShopService.RunSaveShopTask | src/main/java/com/hmdp/service/impl/ShopServiceImpl.java:124-134 | saveShop2Redis(id, 20) then unlock, as RebuildStep 200 ms after the start |
| ShopService.ShopService.SaveShop2Redis | src/main/java/com/hmdp/service/impl/ShopServiceImpl.java:257-268 | writes the envelope {row or null, now + 200 ms + expireSeconds} under the hot key with no TTL |
| ShopService.ShopService.QueryWithMutex | src/main/java/com/hmdp/service/impl/ShopServiceImpl.java:149-204 | the spin loop ends with the reply and keys of MutexLoop, where each lost round is followed by one step of the other threads and a 50 ms sleep |
| ShopService.ShopService.MutexPass | src/main/java/com/hmdp/service/impl/ShopServiceImpl.java:151-199 | one pass of the loop body: it ends the call exactly when MutexRound is done, with MutexRound's result and keys, and a lost lock writes nothing |
| ShopService.ShopService.QueryWithPassThrough | src/main/java/com/hmdp/service/impl/ShopServiceImpl.java:206-238 | CacheClient's pass-through decision on "cache:shop:"+id with a 30 min TTL and the table as the database |
| ShopService.ShopService.Update | src/main/java/com/hmdp/service/impl/ShopServiceImpl.java:283-294 | the reply, table and keys of UpdateStep |
| ShopService.ShopService.TryLock | src/main/java/com/hmdp/service/impl/ShopServiceImpl.java:245-250 | succeeds iff the key is absent, and then stores "1" for 10 s |
| ShopService.ShopService.Unlock | src/main/java/com/hmdp/service/impl/ShopServiceImpl.java:252-254 | deletes the key whoever set it |
| SimpleRedisLock.OwnerTokensDistinct | src/main/java/com/hmdp/utils/SimpleRedisLock.java:22-35 | different JVM prefixes or different thread ids give different owner tokens |
| SimpleRedisLock.TryLockStep | src/main/java/com/hmdp/utils/SimpleRedisLock.java:32-42 | acquires iff "lock:"+name is absent; the token then reads back for timeoutSec seconds and expires after; a failed call writes nothing; other keys are unchanged |
| SimpleRedisLock.UnlockStep | src/main/java/com/hmdp/utils/SimpleRedisLock.java:45-68 | deletes the key iff it holds the caller's token; otherwise nothing changes |
| SimpleRedisLock.HeldLockExcludes | src/main/java/com/hmdp/utils/SimpleRedisLock.java:37-41 | during the lease every tryLock fails, the owner's own included, and the stored owner is unchanged |
| SimpleRedisLock.OwnerUnlockFrees | src/main/java/com/hmdp/utils/SimpleRedisLock.java:45-51 | the owner's unlock frees the lock and the next tryLock succeeds |
| SimpleRedisLock.StaleUnlockSparesNewOwner | src/main/java/com/hmdp/utils/SimpleRedisLock.java:45-56 | after the lease ran out and another owner acquired, the old owner's unlock leaves the new owner's key |
| SimpleRedisLock.ReadThenDeleteRace | src/main/java/com/hmdp/utils/SimpleRedisLock.java:52-68 | the commented-out read-then-delete unlock, split by a lease expiry, deletes the new owner's lock |
| SimpleRedisLock.SimpleRedisLock.TryLock | src/main/java/com/hmdp/utils/SimpleRedisLock.java:32-42 | the result and keys of TryLockStep with the token ID_PREFIX + thread id |
| SimpleRedisLock.SimpleRedisLock.Unlock | src/main/java/com/hmdp/utils/SimpleRedisLock.java:45-51 | the keys of UnlockStep for the calling thread's token |
| RedisIdWorker.BeginTimestampIs2022 | src/main/java/com/hmdp/utils/RedisIdWorker.java:51-56 | 1640995200 is the epoch second of 2022-01-01T00:00:00Z |
| RedisIdWorker.ComposeId | src/main/java/com/hmdp/utils/RedisIdWorker.java:48 | the shift and OR of two longs is again a long: bits shifted past 64 are dropped and the result is read as signed |
| RedisIdWorker.CountStep | src/main/java/com/hmdp/utils/RedisIdWorker.java:43 | INCR raises exactly when the key holds a non-number or the largest long, and then writes nothing; otherwise it returns one more than the live count (1 for an absent or expired key) and stores it; no other key changes |
| RedisIdWorker.NextIdStep | src/main/java/com/hmdp/utils/RedisIdWorker.java:28-49 | an id exactly when the increment succeeds, built from the seconds since 2022 and the new count; only the day's counter key changes |
| RedisIdWorker.ComposeIdRoundTrip | src/main/java/com/hmdp/utils/RedisIdWorker.java:48 | for timestamp < 2^31 and count < 2^32, the id is timestamp*2^32 + count, and the two parts are read back by division and remainder |
| RedisIdWorker.ComposeIdOrdered | src/main/java/com/hmdp/utils/RedisIdWorker.java:48 | within the bounds, a later timestamp gives a larger id, equal timestamps order by count, and ids are equal iff both parts are |
| RedisIdWorker.CountOverflowCollides | src/main/java/com/hmdp/utils/RedisIdWorker.java:48 | in an even second, count 2^32 + k gives the id that count k gets in the next second |
| RedisIdWorker.TimestampOverflowTurnsNegative | src/main/java/com/hmdp/utils/RedisIdWorker.java:48 | from 2^31 to 2^32 seconds after the epoch the id is timestamp * 2^32 + count - 2^64, which is negative |
| RedisIdWorker.NextIdStepUses | src/main/java/com/hmdp/utils/RedisIdWorker.java:28-49 | where the day's counter "icr:"+prefix+":"+yyyy:MM:dd has no TTL, a successful call stores one more than its old value and packs that count with the seconds since 2022-01-01 |
| RedisIdWorker.NextCallUsesNextCount | src/main/java/com/hmdp/utils/RedisIdWorker.java:41-48 | the next call on the same day uses the next count |
| RedisIdWorker.SuccessiveIdsIncrease | src/main/java/com/hmdp/utils/RedisIdWorker.java:31-48 | two successive calls on the same day, the second no earlier in seconds, give strictly increasing ids while the count stays below 2^32 - 1 and the clock within 2^31 seconds of 2022 |
| RedisIdWorker.IdWorker.NextId | src/main/java/com/hmdp/utils/RedisIdWorker.java:28-49 | the id and keys of NextIdStep at the epoch second and the yyyy:MM:dd day read from the same LocalDateTime |
| VoucherOrder.IntValue | src/main/java/com/hmdp/service/impl/VoucherOrderServiceImpl.java:227 | Long.intValue keeps the low 32 bits as a signed int |
| VoucherOrder.SeckillReply | src/main/java/com/hmdp/service/impl/VoucherOrderServiceImpl.java:227-236 | ok(orderId) iff the script's code is 0, fail("库存不足") iff 1, fail("不能重复下单") for any other code |
| VoucherOrder.SeckillStep | src/main/java/com/hmdp/service/impl/VoucherOrderServiceImpl.java:216-237 | the id is drawn first: the call throws exactly when nextId does; otherwise the reply is SeckillReply of the code; a message is queued exactly on code 0, and it is the one entry (lastId + 1, the order of this user, voucher and id), after which the proxy is set; otherwise stream, last id and proxy are unchanged |
| VoucherOrder.RejectedRequestConsumesId | src/main/java/com/hmdp/service/impl/VoucherOrderServiceImpl.java:220-236 | a rejected request fails, queues nothing, and still uses up a count, so the next request that day gets the count after it |
| VoucherOrder.CreateStep | src/main/java/com/hmdp/service/impl/VoucherOrderServiceImpl.java:281-309 | a duplicate or an out-of-stock voucher changes nothing; otherwise stock drops by one and exactly this order is appended; a taken primary key throws and rolls back |
| VoucherOrder.CreatePreserves | src/main/java/com/hmdp/service/impl/VoucherOrderServiceImpl.java:288-307 | stock never goes negative, one order per user and voucher, distinct ids, and stock + sold per voucher is conserved |
| VoucherOrder.HandleStep | src/main/java/com/hmdp/service/impl/VoucherOrderServiceImpl.java:181-207 | a held "lock:order:"+userId returns without writing; otherwise createVoucherOrder runs through the proxy, which throws while it is unset |
| VoucherOrder.Ack | src/main/java/com/hmdp/service/impl/VoucherOrderServiceImpl.java:105 | XACK removes exactly the entries with that id from the pending list |
| VoucherOrder.PendingSweep | src/main/java/com/hmdp/service/impl/VoucherOrderServiceImpl.java:117-148 | a sweep reports drained iff it leaves the pending list empty, what it leaves pending was pending before, and when the first pending entry's handling returns, it is acknowledged: no entry with its id stays pending |
| VoucherOrder.SweepStopsOnlyAtThrow | src/main/java/com/hmdp/service/impl/VoucherOrderServiceImpl.java:117-148 | a sweep that does not drain the pending list stops at an entry whose handling throws |
| VoucherOrder.RunRound | src/main/java/com/hmdp/service/impl/VoucherOrderServiceImpl.java:84-112 | an empty read changes nothing; otherwise the entry leaves the unread list, nothing but it joins the pending list, and after a normal return no entry with its id stays pending |
| VoucherOrder.SweepPreserves | src/main/java/com/hmdp/service/impl/VoucherOrderServiceImpl.java:117-148 | a sweep keeps the tables consistent and conserves stock + sold |
| VoucherOrder.RunRoundPreserves | src/main/java/com/hmdp/service/impl/VoucherOrderServiceImpl.java:84-112 | a consumer round keeps the tables consistent and conserves stock + sold |
| VoucherOrder.ReturnedMessagesAreAcked | src/main/java/com/hmdp/service/impl/VoucherOrderServiceImpl.java:95-105 | a message turned away by the lock, a duplicate or no stock is acknowledged with no order written |
| VoucherOrder.ThrownMessageStaysPending | src/main/java/com/hmdp/service/impl/VoucherOrderServiceImpl.java:106-148 | while the proxy is unset, the message stays pending and nothing is written |
| VoucherOrder.SweepKeepsThrowing | src/main/java/com/hmdp/service/impl/VoucherOrderServiceImpl.java:117-148 | with the proxy unset, a sweep writes nothing and keeps every entry whose user's lock is free |
| VoucherOrder.VoucherOrderService.SeckillVoucher | src/main/java/com/hmdp/service/impl/VoucherOrderServiceImpl.java:216-237 | the reply, keys, stream and proxy of SeckillStep |
| VoucherOrder.VoucherOrderService.CreateVoucherOrder | src/main/java/com/hmdp/service/impl/VoucherOrderServiceImpl.java:281-309 | the tables and exception of CreateStep |
| VoucherOrder.VoucherOrderService.HandleVoucherOrder | src/main/java/com/hmdp/service/impl/VoucherOrderServiceImpl.java:181-207 | the tables and exception of HandleStep; the lock is released again |
| VoucherOrder.VoucherOrderService.ReadNew | src/main/java/com/hmdp/service/impl/VoucherOrderServiceImpl.java:88-92 | delivers the first unread entry and moves it to the pending list; an empty stream delivers nothing |
| VoucherOrder.VoucherOrderService.Acknowledge | src/main/java/com/hmdp/service/impl/VoucherOrderServiceImpl.java:105 | the pending list becomes Ack of the old one |
| VoucherOrder.VoucherOrderService.RunOnce | src/main/java/com/hmdp/service/impl/VoucherOrderServiceImpl.java:84-112 | one round of run leaves the state of RunRound |
| VoucherOrder.VoucherOrderService.HandlePendingList | src/main/java/com/hmdp/service/impl/VoucherOrderServiceImpl.java:117-148 | the sweep leaves the state of PendingSweep |
| UserService.UserHash | src/main/java/com/hmdp/service/impl/UserServiceImpl.java:110-115 | the token hash holds the id as text and the nick name, and an icon exactly when it is not null |
| UserService.SendCodeStep | src/main/java/com/hmdp/service/impl/UserServiceImpl.java:50-70 | an invalid phone fails and stores nothing; otherwise the code reads back for two minutes and is gone after, and no other key changes |
| UserService.LoginStep | src/main/java/com/hmdp/service/impl/UserServiceImpl.java:73-125 | a success returns the token; an invalid phone fails before reading; any failure writes nothing; a user is added only when none has the phone, with the next id and "user_" nick name |
| UserService.WrongCodeRejected | src/main/java/com/hmdp/service/impl/UserServiceImpl.java:84-90 | a missing, expired or different code fails with "验证码错误" and writes neither user nor token |
| UserService.SentCodeLogsIn | src/main/java/com/hmdp/service/impl/UserServiceImpl.java:50-125 | a login within two minutes with the code sent succeeds; the token hash holds that phone's user for LOGIN_USER_TTL; a registered user is not created again |
| UserService.WithPhoneDistinct | src/main/java/com/hmdp/service/impl/UserServiceImpl.java:93 | with phones unique in the table, the query by phone finds at most one user |
| UserService.WithPhone | src/main/java/com/hmdp/service/impl/UserServiceImpl.java:93 | the query by phone selects exactly the users with that phone |
| UserService.Streak | src/main/java/com/hmdp/service/impl/UserServiceImpl.java:149-188 | the streak is at most the day of the month, all its days are signed and the day before it is not |
| UserService.TrailingOnes | src/main/java/com/hmdp/service/impl/UserServiceImpl.java:173-186 | the count is 0 exactly for an even number, and k trailing ones need a number of at least 2^k - 1 |
| UserService.TrailingOnesIsStreak | src/main/java/com/hmdp/service/impl/UserServiceImpl.java:159-187 | the trailing ones of BITFIELD GET u<day> 0 are the consecutive signed days ending today |
| UserService.SignExtendsStreak | src/main/java/com/hmdp/service/impl/UserServiceImpl.java:132-146 | signing today extends yesterday's streak by one |
| UserService.UserService.SendCode | src/main/java/com/hmdp/service/impl/UserServiceImpl.java:50-70 | the reply and keys of SendCodeStep |
| UserService.UserService.Login | src/main/java/com/hmdp/service/impl/UserServiceImpl.java:73-125 | the reply, hashes and user table of LoginStep |
| UserService.UserService.CreateUserWithPhone | src/main/java/com/hmdp/service/impl/UserServiceImpl.java:190-200 | appends a user with the phone, the next id and "user_" + the random suffix |
| UserService.UserService.Sign | src/main/java/com/hmdp/service/impl/UserServiceImpl.java:132-146 | sets bit day-1 of "sign:"+userId+":yyyyMM" and leaves every other bit and key unchanged |
| UserService.UserService.SignCount | src/main/java/com/hmdp/service/impl/UserServiceImpl.java:149-188 | the trailing-ones loop returns the streak of signed days ending today |
| BlogService.ParseIds | src/main/java/com/hmdp/service/impl/BlogServiceImpl.java:199-203 | parses every member in order, or fails exactly when some member is not a number |
| BlogService.InOrder | src/main/java/com/hmdp/service/impl/BlogServiceImpl.java:134-135 | every element is the row of a listed id, every listed id that has a row contributes it, and when every id has a row the reply is exactly those rows in the ids' order |
| BlogService.InOrderSnoc | src/main/java/com/hmdp/service/impl/BlogServiceImpl.java:134-135 | one more listed id appends its row, or nothing when it has none: the reply is the found rows in the ids' order, ids without a row skipped |
| BlogService.LikeStep | src/main/java/com/hmdp/service/impl/BlogServiceImpl.java:76-110 | isLike iff the user had not liked; the set and counter change only when the row exists, adding or removing the user with liked ±1; the reply's liked is the set's new size |
| BlogService.LikeKeepsCount | src/main/java/com/hmdp/service/impl/BlogServiceImpl.java:87-108 | while liked counts the set's members, a toggle keeps it doing so |
| BlogService.LikeTwiceRestores | src/main/java/com/hmdp/service/impl/BlogServiceImpl.java:87-108 | two toggles restore the blog table and the likers, and flip isLike when the row exists |
| BlogService.LikeThenUnlikeRestoresSet | src/main/java/com/hmdp/service/impl/BlogServiceImpl.java:87-105 | a like that is then taken back leaves the sorted set exactly as it was |
| BlogService.LikeFlag | src/main/java/com/hmdp/service/impl/BlogServiceImpl.java:262-274 | with no viewer the blog is unchanged; otherwise isLike says whether the viewer is in the liked set, and nothing else changes |
| BlogService.ToggleThenFlag | src/main/java/com/hmdp/service/impl/BlogServiceImpl.java:262-274 | after a toggle of an existing blog, isBlogLiked reports what the toggle replied |
| BlogService.Decorated | src/main/java/com/hmdp/service/impl/BlogServiceImpl.java:222-227 | every blog gets its author's name and icon and the viewer's like flag, in order; it fails iff some author has no row |
| BlogService.LikersStep | src/main/java/com/hmdp/service/impl/BlogServiceImpl.java:118-142 | ok() with no data iff nobody liked |
| BlogService.LikersInLikeOrder | src/main/java/com/hmdp/service/impl/BlogServiceImpl.java:121-138 | when every liker parses to a registered user id, the reply is the profiles of the first min(5, n) likers by ascending score, in that order |
| BlogService.LastIndexOf | src/main/java/com/hmdp/service/impl/BlogServiceImpl.java:214 | the last position of the character, or -1 when it does not occur |
| BlogService.TrailingRun | src/main/java/com/hmdp/service/impl/BlogServiceImpl.java:205-212 | the entries that end the page at the last score; the one before them, if any, has another score |
| BlogService.SkipCount | src/main/java/com/hmdp/service/impl/BlogServiceImpl.java:192-212 | the scan's `os` is the trailing run at the last score, except on a page whose scores are all 0, where it is one more than the page |
| BlogService.NextOffset | src/main/java/com/hmdp/service/impl/BlogServiceImpl.java:215 | a page wholly at max (max not 0) adds its length to the incoming offset; a page ending below max whose first score is not 0 restarts the offset at its trailing run |
| BlogService.FeedPage | src/main/java/com/hmdp/service/impl/BlogServiceImpl.java:184-185 | at most two inbox entries, all with score in [0, max] |
| BlogService.FeedStep | src/main/java/com/hmdp/service/impl/BlogServiceImpl.java:178-236 | ok() with no data iff the read is empty; otherwise minTime is the last score and offset is NextOffset of the page |
| BlogService.CursorCountsLastRun | src/main/java/com/hmdp/service/impl/BlogServiceImpl.java:192-215 | when the first score is not 0, the offset (less the incoming one when minTime == max) counts the entries ending the page at minTime, and the entry before them scored higher |
| BlogService.BlogService.LikeBlog | src/main/java/com/hmdp/service/impl/BlogServiceImpl.java:76-110 | the reply, liked set and table of LikeStep; other sorted sets are unchanged |
| BlogService.BlogService.QueryBlogLikes | src/main/java/com/hmdp/service/impl/BlogServiceImpl.java:118-142 | the reply of LikersStep |
| BlogService.BlogService.IsBlogLiked | src/main/java/com/hmdp/service/impl/BlogServiceImpl.java:262-274 | the blog of LikeFlag |
| BlogService.BlogService.ScanPage | src/main/java/com/hmdp/service/impl/BlogServiceImpl.java:191-214 | the loop parses the ids in order, joins them with "," without the trailing comma, ends with minTime at the last score and os at SkipCount |
| BlogService.BlogService.DecoratePage | src/main/java/com/hmdp/service/impl/BlogServiceImpl.java:222-227 | the loop's result is Decorated of the page |
| BlogService.BlogService.QueryBlogOfFollow | src/main/java/com/hmdp/service/impl/BlogServiceImpl.java:178-236 | the reply of FeedStep |
| Texts.ParseDecimalRoundTrip | src/main/java/com/hmdp/service/impl/BlogServiceImpl.java:127 | Long.valueOf reads back the id that toString wrote |
| Texts.JoinSnoc | src/main/java/com/hmdp/service/impl/BlogServiceImpl.java:202-214 | appending an id then a comma extends the joined string by the separator and that id |

## Left out

- Thread pools and asynchronous execution. A submitted rebuild is returned to the caller as a `Rebuild` value, and the executor's run is a separate method call. The flash-sale consumer's rounds are explicit method calls, not a background thread.
- Concurrency inside one call is not interleaved, except in `queryWithMutex`. There, a list of store transformations stands for what other threads do during each 50 ms sleep.
- `QueryWithMutex`: the source loops until it gets the lock. The model's loop ends when the list of other threads' steps runs out.
- `HandlePendingList` gives up after a budget of failed rounds. The source retries forever with a 5 s sleep, and the sleep does not advance time in the model.
- Redisson's lock is a set of lock names held by other clients. Lease renewal, reentrancy and fairness are not modelled.
- `seckill.lua` is not part of this model. Only its result code is used, as a parameter. Code 0 is taken to append the order to the stream.
- `unlock.lua` is not part of this model. Its compare-and-delete comes from the commented-out unlock of `SimpleRedisLock`.
- The hutool JSON encoder and `BeanUtil` are modelled by shape, not by text, so encode/decode round-trips by construction. Reading an envelope's LocalDateTime as milliseconds since the epoch is assumed.
- `RegexUtils.isPhoneInvalid` is a parameter of `UserService`.
- `RandomUtil` and `UUID` are parameters of the calls that use them: the code, the token and the nickname suffix.
- Wall-clock reads are parameters. `Thread.sleep` advances `now` only in the shop service, where it changes what later reads see.
- `InterruptedException` is not modelled.
- Sorted-set scores are integer milliseconds rather than doubles, so the `longValue()` truncation does not occur. Members with equal scores keep insertion order, where Redis orders them by member text.
- A null reply from `setIfAbsent`, `bitField` or the admission script is not modelled: the store always answers.
- Sub-millisecond time units are not modelled.
- Failures of the stream read itself and the 2 s blocking wait are not modelled.
- `RedisConstants`, `User`, `Shop`, `Blog`, `UserDTO`, `ScrollResult` and `RegexUtils` are not part of this model. Rows are records of text columns, and the display types keep only the fields the services read or set.
- `queryHotBlog`, `saveBlog` and `queryBlogById` are not modelled; only their helpers `queryBlogUser` and `isBlogLiked` are.
- `BlogService.LikeStep`: the reply's `liked` is the set size without the 32-bit `intValue` truncation, which only matters past 2^31 likers.
- `BlogService.FeedStep`: `offset + os` is not wrapped to 32 bits. A null `offset` or a null `max` is not modelled, since the controller supplies defaults.
- `BlogService.InOrder`: rows come back once per listed id. The ids come from a sorted set and are distinct, except for members such as "7" and "07", which SQL would return only once.
- `UserService.LoginStep`: `query().one()` on more than one matching user throws. The model also assumes the user table keeps phones unique, as `SentCodeLogsIn` requires.
- HTTP sessions, interceptors and `UserHolder`: the logged-in user is a parameter.
- Shop, blog, user and voucher ids are natural numbers, where the source takes `Long` ids that a request path may make negative. A negative id would only change the key text (a leading "-"); the model's tables cannot hold a row with such an id.
- `UserService.UserService.CreateUserWithPhone`: a new user's icon is null, since `createUserWithPhone` sets only the phone and nick name. A default value that the `User` entity may declare for the icon is not modelled, because `User` is not part of this model; with a non-null default, the token hash would also hold an icon.
- `UserService.UserHash`: `beanToMap` with `setIgnoreNullValue(true)` is taken to drop a null field before the `toString` field editor runs. A hutool version that hands the null to the editor first throws a NullPointerException for a user without an icon; that path is not modelled.
- `Texts.ParseDecimal`: accepts only a non-empty run of ASCII digits. `Long.valueOf` also takes a leading sign and throws past 2^63 - 1. So a sorted-set member such as "+7" fails to parse here, where the source reads it. The ids this model writes always parse (`ParseDecimalRoundTrip`).
