/** ShopServiceImpl: shop lookups through the cache and shop updates. queryById goes
    through CacheClient's logical-expiry query on the hot key; the class also keeps its
    own copies of the three cache strategies (pass-through, logical expiry, and a spin
    lock around a rebuild) and the warm-up that stores a shop's envelope. */
module ShopService {
  import opened Wrappers
  import opened Texts
  import opened Redis
  import opened CacheClient

  /** CACHE_HOT_KEY, the prefix of the logical-expiry entries. */
  const CACHE_HOT_KEY: string := "cache:hot:"
  /** CACHE_SHOP_KEY and CACHE_SHOP_TTL (minutes): the prefix and TTL of plain entries. */
  const CACHE_SHOP_KEY: string := "cache:shop:"
  const CACHE_SHOP_TTL: nat := 30
  /** The milliseconds a rebuild sleeps to stand for a slow query, and a losing spinner
      sleeps before it retries. */
  const REBUILD_DELAY: nat := 200
  const SPIN_DELAY: nat := 50

  const SHOP_MISSING: string := "店铺不存在！"
  const ID_MISSING: string := "店铺id不能为空"

  function HotKey(id: nat): string
  {
    CACHE_HOT_KEY + Decimal(id)
  }

  /** getById on the shop table. */
  function ShopRow(shops: map<nat, Record>, id: nat): (r: Lookup)
    ensures r.Found? <==> id in shops
    ensures r.Found? ==> r.row == shops[id]
  {
    if id in shops then Found(shops[id]) else NotFound
  }

  /** queryById's reply to what the cache query returned. */
  function ShopReply(o: Outcome<Record>): (r: Outcome<Result<Record>>)
    ensures r == Threw <==> o == Threw
    ensures r == Returned(Some(Fail(SHOP_MISSING))) <==> o == Returned(None)
    ensures o.Returned? && o.result.Some? ==> r == Returned(Some(Ok(Some(o.result.value))))
  {
    match o
    case Threw => Threw
    case Returned(None) => Returned(Some(Fail(SHOP_MISSING)))
    case Returned(Some(shop)) => Returned(Some(Ok(Some(shop))))
  }

  /** One pass of queryWithMutex's loop: either it ends with a result and the string keys
      afterwards, or it lost the lock and retries. */
  datatype Round = Done(result: Outcome<Record>, strings: Strings) | Retry

  function MutexRound(m: Strings, shops: map<nat, Record>, id: nat, now: nat): (r: Round)
    ensures r.Retry? <==> Read(m, HotKey(id), now).None? && Read(m, LockKeyOf(id), now).Some?
    ensures r.Done? && Read(m, HotKey(id), now).Some? ==> r.strings == m
    ensures r.Done? && Read(m, HotKey(id), now).None? ==> LockKeyOf(id) !in r.strings
  {
    var key := HotKey(id);
    var json := Read(m, key, now);
    if !BlankReply(json) then Done(DecodeBean(json.value), m)
    else if json.Some? then Done(Returned(None), m)
    else
      var lockKey := LockKeyOf(id);
      if Read(m, lockKey, now).Some? then Retry
      else
        var locked := m[lockKey := Entry(Text(LOCK_VALUE), Some(now + 1000 * LOCK_TTL_SECONDS))];
        var t := now + REBUILD_DELAY;
        match ShopRow(shops, id)
        case NotFound =>
          Done(Returned(None), locked[key := Entry(Text(""), Some(t + ToMillis(CACHE_NULL_TTL, Minutes)))] - {lockKey})
        case Found(shop) =>
          Done(Returned(Some(shop)), locked[key := Entry(Json(shop), Some(t + ToMillis(CACHE_SHOP_TTL, Minutes)))] - {lockKey})
  }

  /** What one interleaved thread does to the string keys while a spinner sleeps. */
  type Interleaving = Strings -> Strings

  /** The result of queryWithMutex and the string keys afterwards. */
  datatype Mutex = Mutex(result: Outcome<Record>, strings: Strings)

  /** queryWithMutex: rounds until one ends. After a lost round the caller sleeps 50 ms,
      during which the next thread of `world` (if any) runs, and then the `finally`
      block deletes the lock key. The loop is unbounded in the source; here it ends
      because, once `world` is used up, nobody else takes the lock. A hit on the first
      round leaves the keys as they were; every other way out of the loop passes a
      `finally` and leaves the lock key deleted, however many rounds were lost and
      whatever the other threads did meanwhile. */
  function MutexLoop(m: Strings, world: seq<Interleaving>, shops: map<nat, Record>, id: nat, now: nat): (r: Mutex)
    decreases |world|, if LockKeyOf(id) in m then 1 else 0
    ensures Read(m, HotKey(id), now).Some? ==> r.strings == m
    ensures Read(m, HotKey(id), now).None? ==> LockKeyOf(id) !in r.strings
  {
    match MutexRound(m, shops, id, now)
    case Done(r, s) => Mutex(r, s)
    case Retry =>
      var slept := if world == [] then m else world[0](m);
      MutexLoop(slept - {LockKeyOf(id)}, if world == [] then [] else world[1..], shops, id, now + SPIN_DELAY)
  }

  /** The spin lock excludes nobody: a caller that loses the lock deletes it in its
      `finally`, so on its next round it takes the lock and queries the database while
      the winner's ten-second lease still runs. */
  lemma {:induction false} LoserRebuildsDuringWinnersLease(m: Strings, shops: map<nat, Record>, id: nat, now: nat)
    requires Read(m, HotKey(id), now).None? && Read(m, HotKey(id), now + SPIN_DELAY).None?
    requires Read(m, LockKeyOf(id), now + SPIN_DELAY).Some?
    requires id in shops
    ensures Read(m, LockKeyOf(id), now).Some?
    ensures MutexLoop(m, [], shops, id, now).result == Returned(Some(shops[id]))
  {
    var lockKey := LockKeyOf(id);
    PrefixesKeepKeysApart(CACHE_HOT_KEY, LOCK_SHOP_KEY, Decimal(id));
    assert Read(m - {lockKey}, HotKey(id), now + SPIN_DELAY) == Read(m, HotKey(id), now + SPIN_DELAY);
    assert MutexRound(m, shops, id, now).Retry?;
  }

  /** A lookup that finds the key present never reaches the database and ends in one
      round: a blank marker answers null, the JSON of a shop answers that shop. */
  lemma {:induction false} MutexHitSkipsDatabase(m: Strings, world: seq<Interleaving>, shops: map<nat, Record>, id: nat, now: nat)
    requires Read(m, HotKey(id), now).Some?
    ensures var v := Read(m, HotKey(id), now).value;
            var r := MutexLoop(m, world, shops, id, now);
            && r.strings == m
            && (BlankReply(Some(v)) ==> r.result == Returned(None))
            && (v.Json? ==> r.result == Returned(Some(v.doc)))
            && (v.Envelope? ==> r.result == Returned(Some(EMPTY_BEAN)))
  {
  }

  /** The lock winner caches the shop for CACHE_SHOP_TTL, or "" for CACHE_NULL_TTL when
      the table has no such row, answers accordingly, and releases the lock. */
  lemma {:induction false} MutexWinnerCaches(m: Strings, world: seq<Interleaving>, shops: map<nat, Record>, id: nat, now: nat)
    requires Read(m, HotKey(id), now).None? && Read(m, LockKeyOf(id), now).None?
    ensures var r := MutexLoop(m, world, shops, id, now);
            var t := now + REBUILD_DELAY;
            && LockKeyOf(id) !in r.strings
            && (id in shops ==> r.result == Returned(Some(shops[id]))
                                && Read(r.strings, HotKey(id), t) == Some(Json(shops[id]))
                                && HotKey(id) in r.strings && r.strings[HotKey(id)].expireAt == Some(t + 1800000))
            && (id !in shops ==> r.result == Returned(None)
                                 && Read(r.strings, HotKey(id), t) == Some(Text(""))
                                 && HotKey(id) in r.strings && r.strings[HotKey(id)].expireAt == Some(t + 120000))
  {
    PrefixesKeepKeysApart(CACHE_HOT_KEY, LOCK_SHOP_KEY, Decimal(id));
  }

  /** update: the reply, the table and the string keys afterwards. */
  datatype Updated = Updated(reply: Result<Record>, shops: map<nat, Record>, strings: Strings)

  /** update(shop): a shop without id fails and changes nothing; otherwise updateById
      overwrites the columns the shop carries on the row with that id, if there is one,
      and the plain cache entry is deleted. */
  function UpdateStep(shops: map<nat, Record>, m: Strings, shopId: Option<nat>, columns: map<string, string>): (r: Updated)
    ensures shopId.None? <==> r.reply == Fail(ID_MISSING)
    ensures shopId.None? ==> r.shops == shops && r.strings == m
    ensures shopId.Some? ==> r.reply == Ok(None) && r.strings == m - {CACHE_SHOP_KEY + Decimal(shopId.value)}
    ensures r.shops.Keys == shops.Keys
    ensures shopId.Some? && shopId.value in shops ==>
              shopId.value in r.shops && r.shops[shopId.value] == shops[shopId.value].(columns := shops[shopId.value].columns + columns)
    ensures forall i :: i in shops && Some(i) != shopId ==> i in r.shops && r.shops[i] == shops[i]
  {
    match shopId
    case None => Updated(Fail(ID_MISSING), shops, m)
    case Some(id) =>
      var updated := if id in shops then shops[id := shops[id].(columns := shops[id].columns + columns)] else shops;
      Updated(Ok(None), updated, m - {CACHE_SHOP_KEY + Decimal(id)})
  }

  /** update deletes the plain entry but not the hot entry queryById reads: while the
      hot envelope is unexpired, queryById keeps answering the row as it was before. */
  lemma {:induction false} UpdateLeavesHotEntryStale(shops: map<nat, Record>, m: Strings, id: nat,
                                                    columns: map<string, string>, env: RedisData, now: nat)
    requires Read(m, HotKey(id), now) == Some(Envelope(env))
    requires env.expireTime.Some? && FreshAt(env, now)
    ensures var u := UpdateStep(shops, m, Some(id), columns);
            LogicalStep(u.strings, CACHE_HOT_KEY, id, 10, Seconds, now) == Logical(Returned(env.data), None, u.strings)
  {
    PrefixesKeepKeysApart(CACHE_SHOP_KEY, CACHE_HOT_KEY, Decimal(id));
    var u := UpdateStep(shops, m, Some(id), columns);
    assert Read(u.strings, HotKey(id), now) == Read(m, HotKey(id), now);
  }

  class ShopService {
    const redis: Store
    const cacheClient: CacheClient
    /** The shop table. */
    var shops: map<nat, Record>

    constructor (redis: Store, shops: map<nat, Record>)
      ensures this.redis == redis && cacheClient.redis == redis && this.shops == shops
    {
      this.redis := redis;
      this.shops := shops;
      this.cacheClient := new CacheClient(redis);
    }

    /** queryById(id): the logical-expiry query on the hot key, rebuilt for ten seconds;
        the rebuild it submitted, if any, is returned for RunHotRebuild. */
    method QueryById(id: nat, now: nat) returns (r: Outcome<Result<Record>>, task: Option<Rebuild>)
      requires cacheClient.redis == redis
      modifies redis`strings
      ensures var step := LogicalStep(old(redis.strings), CACHE_HOT_KEY, id, 10, Seconds, now);
              && r == ShopReply(step.result) && task == step.task && redis.strings == step.strings
    {
      var shop;
      shop, task := cacheClient.QueryWithLogicalExpire(CACHE_HOT_KEY, id, 10, Seconds, now);
      r := ShopReply(shop);
    }

    /** The rebuild queryById submitted, run on the executor at `now` against the table. */
    method RunHotRebuild(task: Rebuild, now: nat) returns (failed: bool)
      requires cacheClient.redis == redis
      modifies redis`strings
      ensures !failed
      ensures redis.strings == RebuildStep(old(redis.strings), task, ShopRow(shops, task.id), now)
    {
      var rows := shops;
      failed := cacheClient.RunRebuild(task, (i: nat) => ShopRow(rows, i), now);
    }

    /** The class's own logical-expiry query: the decision of CacheClient's, on the hot
        key, with saveShop2Redis(id, 20) as the rebuild. */
    method QueryWithLogicalExpire(id: nat, now: nat) returns (shop: Outcome<Record>, task: Option<Rebuild>)
      modifies redis`strings
      ensures Logical(shop, task, redis.strings) == LogicalStep(old(redis.strings), CACHE_HOT_KEY, id, 20, Seconds, now)
    {
      var key := CACHE_HOT_KEY + Decimal(id);
      var shopJson := redis.Get(key, now);
      task := None;
      if BlankReply(shopJson) {
        return Returned(None), None;
      }
      var redisData: RedisData;
      match shopJson.value {
        case Envelope(env) => redisData := env;
        case Json(_) => redisData := RedisData(None, None);
        case Text(_) => return Threw, None;
        case Num(_) => return Threw, None;
      }
      if redisData.expireTime.None? {
        return Threw, None;
      }
      shop := Returned(redisData.data);
      if FreshAt(redisData, now) {
        return;
      }
      var lockKey := LOCK_SHOP_KEY + Decimal(id);
      var isLock := TryLock(lockKey, now);
      if isLock {
        shop, task := DoubleCheck(key, lockKey, id, now);
      }
    }

    /** The lock winner's second read before it submits saveShop2Redis. */
    method DoubleCheck(key: string, lockKey: string, id: nat, now: nat) returns (shop: Outcome<Record>, task: Option<Rebuild>)
      ensures Logical(shop, task, redis.strings) == DoubleCheckStep(redis.strings, key, lockKey, id, 20, Seconds, now)
    {
      var shopJson := redis.Get(key, now);
      task := None;
      if BlankReply(shopJson) {
        return Returned(None), None;
      }
      var redisData: RedisData;
      match shopJson.value {
        case Envelope(env) => redisData := env;
        case Json(_) => redisData := RedisData(None, None);
        case Text(_) => return Threw, None;
        case Num(_) => return Threw, None;
      }
      if redisData.expireTime.None? {
        return Threw, None;
      }
      shop := Returned(redisData.data);
      if !FreshAt(redisData, now) {
        task := Some(Rebuild(key, lockKey, id, 20, Seconds));
      }
    }

    /** The job the class's own query submits: saveShop2Redis(id, 20), then unlock. */
    method RunSaveShopTask(id: nat, lockKey: string, now: nat)
      modifies redis`strings
      ensures redis.strings == RebuildStep(old(redis.strings), Rebuild(HotKey(id), lockKey, id, 20, Seconds),
                                           ShopRow(shops, id), now + REBUILD_DELAY)
    {
      SaveShop2Redis(id, 20, now);
      Unlock(lockKey);
    }

    /** saveShop2Redis(id, expireSeconds): the warm-up. It reads the row, sleeps 200 ms and
        stores the envelope, expiring expireSeconds later, under the hot key with no TTL;
        a missing row is stored as null data. */
    method SaveShop2Redis(id: nat, expireSeconds: nat, now: nat)
      modifies redis`strings
      ensures var data := if id in shops then Some(shops[id]) else None;
              redis.strings == old(redis.strings)[HotKey(id) := Entry(Envelope(RedisData(data, Some(now + REBUILD_DELAY + 1000 * expireSeconds))), None)]
    {
      var shop := if id in shops then Some(shops[id]) else None;
      var t := now + REBUILD_DELAY;
      var redisData := RedisData(shop, Some(t + 1000 * expireSeconds));
      redis.Set(CACHE_HOT_KEY + Decimal(id), Envelope(redisData));
    }

    /** queryWithMutex(id). `world` lists what other threads do during each 50 ms sleep
        after a lost round. */
    method QueryWithMutex(id: nat, world: seq<Interleaving>, now: nat) returns (shop: Outcome<Record>)
      modifies redis`strings
      ensures Mutex(shop, redis.strings) == MutexLoop(old(redis.strings), world, shops, id, now)
    {
      var t: nat := now;
      var i := 0;
      while true
        invariant 0 <= i <= |world|
        invariant MutexLoop(redis.strings, world[i..], shops, id, t) == MutexLoop(old(redis.strings), world, shops, id, now)
        decreases |world| - i, if LockKeyOf(id) in redis.strings then 1 else 0
      {
        var done;
        done, shop := MutexPass(id, t);
        if done {
          return;
        }
        // Thread.sleep(50): the next interleaved thread runs; then `continue` passes
        // through the `finally` block, which deletes the lock key.
        if i < |world| {
          redis.strings := world[i](redis.strings);
          i := i + 1;
        }
        Unlock(LOCK_SHOP_KEY + Decimal(id));
        t := t + SPIN_DELAY;
      }
    }

    /** One pass of queryWithMutex's loop body up to the sleep: it ends the call with
        `shop` (`done`), or it lost the lock and has written nothing. */
    method MutexPass(id: nat, t: nat) returns (done: bool, shop: Outcome<Record>)
      modifies redis`strings
      ensures done <==> MutexRound(old(redis.strings), shops, id, t).Done?
      ensures done ==> Done(shop, redis.strings) == MutexRound(old(redis.strings), shops, id, t)
      ensures !done ==> redis.strings == old(redis.strings)
    {
      var key := CACHE_HOT_KEY + Decimal(id);
      var shopJson := redis.Get(key, t);
      if !BlankReply(shopJson) {
        return true, DecodeBean(shopJson.value);
      }
      if shopJson.Some? {
        return true, Returned(None);
      }
      var lockKey := LOCK_SHOP_KEY + Decimal(id);
      var isLock := TryLock(lockKey, t);
      if !isLock {
        // The caller sleeps and retries; `shop` is not used.
        return false, Returned(None);
      }
      var found := ShopRow(shops, id);
      var t' := t + REBUILD_DELAY;
      if found.NotFound? {
        redis.SetEx(key, Text(""), ToMillis(CACHE_NULL_TTL, Minutes), t');
        Unlock(lockKey);
        return true, Returned(None);
      }
      redis.SetEx(key, Json(found.row), ToMillis(CACHE_SHOP_TTL, Minutes), t');
      Unlock(lockKey);
      return true, Returned(Some(found.row));
    }

    /** The class's own queryWithPassThrough: CacheClient's decision on the plain key,
        with getById as the callback and CACHE_SHOP_TTL minutes. */
    method QueryWithPassThrough(id: nat, now: nat) returns (shop: Outcome<Record>)
      modifies redis`strings
      ensures var rows := old(shops);
              var step := PassThroughStep(old(redis.strings), CACHE_SHOP_KEY, id, (i: nat) => ShopRow(rows, i), CACHE_SHOP_TTL, Minutes, now);
              shop == step.result && redis.strings == step.strings
    {
      var key := CACHE_SHOP_KEY + Decimal(id);
      var shopJson := redis.Get(key, now);
      if !BlankReply(shopJson) {
        return DecodeBean(shopJson.value);
      }
      if shopJson.Some? {
        return Returned(None);
      }
      var found := ShopRow(shops, id);
      if found.NotFound? {
        redis.SetEx(key, Text(""), ToMillis(CACHE_NULL_TTL, Minutes), now);
        return Returned(None);
      }
      redis.SetEx(key, Json(found.row), ToMillis(CACHE_SHOP_TTL, Minutes), now);
      return Returned(Some(found.row));
    }

    /** update(shop), for a shop with the given id (None when null) and non-null columns. */
    method Update(shopId: Option<nat>, columns: map<string, string>) returns (reply: Result<Record>)
      modifies this`shops, redis`strings
      ensures Updated(reply, shops, redis.strings) == UpdateStep(old(shops), old(redis.strings), shopId, columns)
    {
      if shopId.None? {
        return Fail(ID_MISSING);
      }
      var id := shopId.value;
      if id in shops {
        shops := shops[id := shops[id].(columns := shops[id].columns + columns)];
      }
      redis.Delete(CACHE_SHOP_KEY + Decimal(id));
      reply := Ok(None);
    }

    /** tryLock(key): SET key "1" NX EX 10. */
    method TryLock(key: string, now: nat) returns (ok: bool)
      modifies redis`strings
      ensures ok <==> Read(old(redis.strings), key, now).None?
      ensures redis.strings == if ok then old(redis.strings)[key := Entry(Text(LOCK_VALUE), Some(now + 1000 * LOCK_TTL_SECONDS))]
                               else old(redis.strings)
    {
      ok := redis.SetIfAbsent(key, Text(LOCK_VALUE), 1000 * LOCK_TTL_SECONDS, now);
    }

    /** unlock(key): DEL key, whoever set it. */
    method Unlock(key: string)
      modifies redis`strings
      ensures redis.strings == old(redis.strings) - {key}
    {
      redis.Delete(key);
    }
  }
}
