/** CacheClient: the cache-aside helper over the store. A pass-through query caches
    misses as an empty text so that repeated lookups of a missing id do not reach the
    database; a logical-expiry query keeps an envelope with its own expiry instant,
    always answers from the cache, and has a single lock winner rebuild an expired
    entry on another thread. */
module CacheClient {
  import opened Wrappers
  import opened Texts
  import opened Redis

  /** CACHE_NULL_TTL, in minutes: how long an empty marker shields the database. */
  const CACHE_NULL_TTL: nat := 2
  /** LOCK_SHOP_KEY: the prefix of the rebuild locks. */
  const LOCK_SHOP_KEY: string := "lock:shop:"
  /** The value and the lease, in seconds, of a rebuild lock. */
  const LOCK_VALUE: string := "1"
  const LOCK_TTL_SECONDS: nat := 10

  /** What the database callback gives for an id: a row, null, or an exception. */
  datatype Lookup = Found(row: Record) | NotFound | Raises

  /** The cache key of an id under a prefix: prefix + String.valueOf(id). */
  function CacheKey(keyPrefix: string, id: nat): string
  {
    keyPrefix + Decimal(id)
  }

  function LockKeyOf(id: nat): string
  {
    LOCK_SHOP_KEY + Decimal(id)
  }

  /** JSONUtil.toBean of a non-blank cached text as a bean: the JSON of a bean gives it
      back; the JSON of an envelope has none of the bean's fields, which toBean skips,
      so it gives the empty bean; any other text is a parse failure. */
  function DecodeBean(v: Value): (r: Outcome<Record>)
    ensures r.Returned? <==> v.Json? || v.Envelope?
    ensures v.Json? ==> r == Returned(Some(v.doc))
    ensures v.Envelope? ==> r == Returned(Some(EMPTY_BEAN))
  {
    match v
    case Json(doc) => Returned(Some(doc))
    case Envelope(_) => Returned(Some(EMPTY_BEAN))
    case _ => Threw
  }

  /** The result of queryWithPassThrough: what it returns, whether it called the
      database, and the string keys afterwards. */
  datatype PassThrough = PassThrough(result: Outcome<Record>, queried: bool, strings: Strings)

  /** queryWithPassThrough(keyPrefix, id, type, dbFallback, time, unit). */
  function PassThroughStep(m: Strings, keyPrefix: string, id: nat, dbFallback: nat -> Lookup,
                           time: nat, unit: TimeUnit, now: nat): (r: PassThrough)
    ensures r.queried <==> Read(m, CacheKey(keyPrefix, id), now).None?
    ensures !r.queried ==> r.strings == m
  {
    var key := CacheKey(keyPrefix, id);
    var json := Read(m, key, now);
    if !BlankReply(json) then PassThrough(DecodeBean(json.value), false, m)
    else if json.Some? then PassThrough(Returned(None), false, m)
    else
      match dbFallback(id)
      case Raises => PassThrough(Threw, true, m)
      case NotFound => PassThrough(Returned(None), true, m[key := Entry(Text(""), Some(now + ToMillis(CACHE_NULL_TTL, Minutes)))])
      case Found(row) => PassThrough(Returned(Some(row)), true, m[key := Entry(Json(row), Some(now + ToMillis(time, unit)))])
  }

  /** A miss goes to the database once; a row is cached for the caller's TTL, a missing
      row as "" for two minutes, and an exception writes nothing. */
  lemma {:induction false} PassThroughMiss(m: Strings, keyPrefix: string, id: nat, dbFallback: nat -> Lookup,
                                          time: nat, unit: TimeUnit, now: nat)
    requires Read(m, CacheKey(keyPrefix, id), now).None?
    ensures var r := PassThroughStep(m, keyPrefix, id, dbFallback, time, unit, now);
            var key := CacheKey(keyPrefix, id);
            && r.queried
            && (dbFallback(id).Found? ==>
                  r.result == Returned(Some(dbFallback(id).row))
                  && r.strings == m[key := Entry(Json(dbFallback(id).row), Some(now + ToMillis(time, unit)))])
            && (dbFallback(id).NotFound? ==>
                  r.result == Returned(None)
                  && r.strings == m[key := Entry(Text(""), Some(now + 120000))])
            && (dbFallback(id).Raises? ==> r.result == Threw && r.strings == m)
  {
  }

  /** A hit never reaches the database: a blank marker answers null, the JSON of a bean
      answers that bean, and nothing is written. */
  lemma {:induction false} PassThroughHit(m: Strings, keyPrefix: string, id: nat, dbFallback: nat -> Lookup,
                                         time: nat, unit: TimeUnit, now: nat)
    requires Read(m, CacheKey(keyPrefix, id), now).Some?
    ensures var r := PassThroughStep(m, keyPrefix, id, dbFallback, time, unit, now);
            var v := Read(m, CacheKey(keyPrefix, id), now).value;
            && !r.queried && r.strings == m
            && (BlankReply(Some(v)) ==> r.result == Returned(None))
            && (v.Json? ==> r.result == Returned(Some(v.doc)))
            && (v.Envelope? ==> r.result == Returned(Some(EMPTY_BEAN)))
  {
  }

  /** Cache penetration is shut off: after a lookup found no row, every query of the
      same id within CACHE_NULL_TTL answers null without calling the database, whatever
      callback it passes. */
  lemma {:induction false} NullMarkerShieldsDatabase(m: Strings, keyPrefix: string, id: nat,
                                                    dbFallback: nat -> Lookup, time: nat, unit: TimeUnit, now: nat,
                                                    later: nat -> Lookup, time2: nat, unit2: TimeUnit, now2: nat)
    requires Read(m, CacheKey(keyPrefix, id), now).None? && dbFallback(id).NotFound?
    requires now <= now2 < now + 60000 * CACHE_NULL_TTL
    ensures var first := PassThroughStep(m, keyPrefix, id, dbFallback, time, unit, now);
            PassThroughStep(first.strings, keyPrefix, id, later, time2, unit2, now2)
              == PassThrough(Returned(None), false, first.strings)
  {
    var key := CacheKey(keyPrefix, id);
    var first := PassThroughStep(m, keyPrefix, id, dbFallback, time, unit, now);
    assert first.strings[key] == Entry(Text(""), Some(now + 120000));
    assert Read(first.strings, key, now2) == Some(Text(""));
    assert IsBlank("");
  }

  /** A row the database gave is served from the cache, unchanged, until its TTL ends. */
  lemma {:induction false} CachedRowServed(m: Strings, keyPrefix: string, id: nat,
                                          dbFallback: nat -> Lookup, time: nat, unit: TimeUnit, now: nat,
                                          later: nat -> Lookup, time2: nat, unit2: TimeUnit, now2: nat)
    requires Read(m, CacheKey(keyPrefix, id), now).None? && dbFallback(id).Found?
    requires now <= now2 < now + ToMillis(time, unit)
    ensures var first := PassThroughStep(m, keyPrefix, id, dbFallback, time, unit, now);
            PassThroughStep(first.strings, keyPrefix, id, later, time2, unit2, now2)
              == PassThrough(Returned(Some(dbFallback(id).row)), false, first.strings)
  {
    var key := CacheKey(keyPrefix, id);
    var first := PassThroughStep(m, keyPrefix, id, dbFallback, time, unit, now);
    assert first.strings[key] == Entry(Json(dbFallback(id).row), Some(now + ToMillis(time, unit)));
    assert Read(first.strings, key, now2) == Some(Json(dbFallback(id).row));
  }

  /** getWithLogicalExpire(key): null for a blank text; otherwise JSONUtil.toBean as a
      RedisData. The JSON of an envelope gives it back; the JSON of a plain bean has
      neither field, so it gives an envelope whose fields are both null; any other text
      fails to parse. */
  function EnvelopeAt(m: Strings, key: string, now: nat): (r: Outcome<RedisData>)
    ensures BlankReply(Read(m, key, now)) ==> r == Returned(None)
    ensures r == Returned(None) ==> BlankReply(Read(m, key, now))
    ensures (r.Returned? && r.result.Some? && r.result.value.expireTime.Some?)
              ==> Read(m, key, now) == Some(Envelope(r.result.value))
  {
    var json := Read(m, key, now);
    if BlankReply(json) then Returned(None)
    else match json.value
      case Envelope(env) => Returned(Some(env))
      case Json(_) => Returned(Some(RedisData(None, None)))
      case _ => Threw
  }

  /** A rebuild handed to the executor: the cache key, the lock it must release, and
      the arguments of the database call and of the new envelope. */
  datatype Rebuild = Rebuild(key: string, lockKey: string, id: nat, time: nat, unit: TimeUnit)

  /** The result of queryWithLogicalExpire: what it returns, the rebuild it submitted,
      and the string keys afterwards. */
  datatype Logical = Logical(result: Outcome<Record>, task: Option<Rebuild>, strings: Strings)

  /** Whether an envelope's expiry instant is after `now` (isAfter(now)). */
  predicate FreshAt(env: RedisData, now: nat)
    requires env.expireTime.Some?
  {
    env.expireTime.value > now
  }

  /** The steps of queryWithLogicalExpire after the lock was won: read the envelope
      again; return it if it is missing or fresh, otherwise submit a rebuild and return
      the stale data. It writes nothing, so on its early returns the lock stays held. */
  function DoubleCheckStep(m: Strings, key: string, lockKey: string, id: nat,
                           time: nat, unit: TimeUnit, now: nat): (r: Logical)
    ensures r.strings == m
    ensures r.task.Some? <==> EnvelopeAt(m, key, now).Returned? && EnvelopeAt(m, key, now).result.Some?
                              && EnvelopeAt(m, key, now).result.value.expireTime.Some?
                              && !FreshAt(EnvelopeAt(m, key, now).result.value, now)
    ensures r.task.Some? ==> r.task == Some(Rebuild(key, lockKey, id, time, unit))
  {
    match EnvelopeAt(m, key, now)
    case Threw => Logical(Threw, None, m)
    case Returned(None) => Logical(Returned(None), None, m)
    case Returned(Some(env)) =>
      if env.expireTime.None? then Logical(Threw, None, m)
      else if FreshAt(env, now) then Logical(Returned(env.data), None, m)
      else Logical(Returned(env.data), Some(Rebuild(key, lockKey, id, time, unit)), m)
  }

  /** queryWithLogicalExpire(keyPrefix, id, type, dbFallback, time, unit) as one
      uninterrupted call. An absent or blank key answers null, and an expired envelope
      whose lock another caller holds answers its stale data; neither writes. */
  function LogicalStep(m: Strings, keyPrefix: string, id: nat, time: nat, unit: TimeUnit, now: nat): (r: Logical)
    ensures BlankReply(Read(m, CacheKey(keyPrefix, id), now)) ==> r == Logical(Returned(None), None, m)
    ensures ExpiredEnvelope(m, CacheKey(keyPrefix, id), now) && Read(m, LockKeyOf(id), now).Some? ==>
              r == Logical(Returned(Read(m, CacheKey(keyPrefix, id), now).value.env.data), None, m)
  {
    var key := CacheKey(keyPrefix, id);
    match EnvelopeAt(m, key, now)
    case Threw => Logical(Threw, None, m)
    case Returned(None) => Logical(Returned(None), None, m)
    case Returned(Some(env)) =>
      if env.expireTime.None? then Logical(Threw, None, m)
      else if FreshAt(env, now) then Logical(Returned(env.data), None, m)
      else
        var lockKey := LockKeyOf(id);
        if Read(m, lockKey, now).Some? then Logical(Returned(env.data), None, m)
        else DoubleCheckStep(m[lockKey := Entry(Text(LOCK_VALUE), Some(now + 1000 * LOCK_TTL_SECONDS))],
                             key, lockKey, id, time, unit, now)
  }

  /** The expired envelope stored under the key at `now`, if that is what it holds. */
  predicate ExpiredEnvelope(m: Strings, key: string, now: nat)
  {
    var v := Read(m, key, now);
    v.Some? && v.value.Envelope? && v.value.env.expireTime.Some? && !FreshAt(v.value.env, now)
  }

  /** A call submits a rebuild exactly when the cached envelope has expired and the
      rebuild lock is free; then it takes the lock for ten seconds and answers the stale
      data. Every other call writes nothing. */
  lemma {:induction false} RebuildOnlyByLockWinner(m: Strings, keyPrefix: string, id: nat, time: nat, unit: TimeUnit, now: nat)
    ensures var r := LogicalStep(m, keyPrefix, id, time, unit, now);
            var key := CacheKey(keyPrefix, id);
            var lockKey := LockKeyOf(id);
            && (r.task.Some? <==> ExpiredEnvelope(m, key, now) && Read(m, lockKey, now).None?)
            && (r.task.Some? ==> r.task == Some(Rebuild(key, lockKey, id, time, unit))
                                 && r.result == Returned(Read(m, key, now).value.env.data)
                                 && r.strings == m[lockKey := Entry(Text("1"), Some(now + 10000))])
            && (r.task.None? ==> r.strings == m)
  {
    var key := CacheKey(keyPrefix, id);
    var lockKey := LockKeyOf(id);
    if ExpiredEnvelope(m, key, now) && Read(m, lockKey, now).None? {
      // The key holds an envelope and the lock key holds nothing, so they differ and
      // taking the lock leaves the envelope for the double-check to read again.
      assert key != lockKey;
      var locked := m[lockKey := Entry(Text(LOCK_VALUE), Some(now + 1000 * LOCK_TTL_SECONDS))];
      assert Read(locked, key, now) == Read(m, key, now);
    }
  }

  /** An unexpired envelope is answered as it is, with no lock and no rebuild. */
  lemma {:induction false} FreshEnvelopeServed(m: Strings, keyPrefix: string, id: nat, time: nat, unit: TimeUnit,
                                              now: nat, env: RedisData)
    requires Read(m, CacheKey(keyPrefix, id), now) == Some(Envelope(env))
    requires env.expireTime.Some? && FreshAt(env, now)
    ensures LogicalStep(m, keyPrefix, id, time, unit, now) == Logical(Returned(env.data), None, m)
  {
  }

  /** No stampede: once a call has submitted a rebuild, every call for the same id
      during the lock's ten seconds, under any key prefix, submits none. */
  lemma {:induction false} SingleRebuildPerLease(m: Strings, keyPrefix: string, id: nat, time: nat, unit: TimeUnit, now: nat,
                                                keyPrefix2: string, time2: nat, unit2: TimeUnit, now2: nat)
    requires LogicalStep(m, keyPrefix, id, time, unit, now).task.Some?
    requires now <= now2 < now + 1000 * LOCK_TTL_SECONDS
    ensures var first := LogicalStep(m, keyPrefix, id, time, unit, now);
            var second := LogicalStep(first.strings, keyPrefix2, id, time2, unit2, now2);
            && second.task.None?
            && second.strings == first.strings
  {
    RebuildOnlyByLockWinner(m, keyPrefix, id, time, unit, now);
    var first := LogicalStep(m, keyPrefix, id, time, unit, now);
    assert Read(first.strings, LockKeyOf(id), now2).Some?;
    RebuildOnlyByLockWinner(first.strings, keyPrefix2, id, time2, unit2, now2);
  }

  /** The rebuild task on the executor at `now`: query the database, write a new
      envelope expiring unit.toSeconds(time) seconds later with no TTL, and release the
      lock in any case. A null row is cached as an envelope with null data; an
      exception writes no envelope. */
  function RebuildStep(m: Strings, task: Rebuild, lookup: Lookup, now: nat): (r: Strings)
    ensures task.lockKey !in r
    ensures lookup.Raises? ==> r == m - {task.lockKey}
    ensures !lookup.Raises? && task.key != task.lockKey ==>
              task.key in r && r[task.key] == Entry(Envelope(RedisData(if lookup.Found? then Some(lookup.row) else None,
                                                      Some(now + 1000 * ToSeconds(task.time, task.unit)))), None)
    ensures forall k :: k != task.key && k != task.lockKey ==> Read(r, k, now) == Read(m, k, now)
  {
    match lookup
    case Raises => m - {task.lockKey}
    case NotFound => m[task.key := Entry(Envelope(RedisData(None, Some(now + 1000 * ToSeconds(task.time, task.unit)))), None)] - {task.lockKey}
    case Found(row) => m[task.key := Entry(Envelope(RedisData(Some(row), Some(now + 1000 * ToSeconds(task.time, task.unit)))), None)] - {task.lockKey}
  }

  /** Keys built from different prefixes and the same id differ. */
  lemma {:induction false} PrefixesKeepKeysApart(a: string, b: string, suffix: string)
    requires a != b
    ensures a + suffix != b + suffix
  {
    if |a| == |b| {
      var i :| 0 <= i < |a| && a[i] != b[i];
      assert (a + suffix)[i] != (b + suffix)[i];
    }
  }

  /** After a rebuild, queries answer the new row with no further rebuild until the new
      expiry instant, provided the cache key is not the lock key itself. */
  lemma {:induction false} RebuildRefreshes(m: Strings, task: Rebuild, row: Record, now: nat,
                                           keyPrefix: string, id: nat, time2: nat, unit2: TimeUnit, now2: nat)
    requires task.key == CacheKey(keyPrefix, id) && task.lockKey == LockKeyOf(id)
    requires keyPrefix != LOCK_SHOP_KEY
    requires now <= now2 < now + 1000 * ToSeconds(task.time, task.unit)
    ensures var rebuilt := RebuildStep(m, task, Found(row), now);
            LogicalStep(rebuilt, keyPrefix, id, time2, unit2, now2) == Logical(Returned(Some(row)), None, rebuilt)
  {
    PrefixesKeepKeysApart(keyPrefix, LOCK_SHOP_KEY, Decimal(id));
  }

  /** Why the lock winner reads the envelope again: if another rebuild finished between
      this caller's first read and its lock, the double-check answers the new row and
      submits no second rebuild, but it returns holding the lock it just took. */
  lemma {:induction false} DoubleCheckSeesConcurrentRebuild(m: Strings, task: Rebuild, row: Record, t0: nat, now: nat,
                                                           id: nat, time: nat, unit: TimeUnit)
    requires task.key != task.lockKey
    requires t0 <= now < t0 + 1000 * ToSeconds(task.time, task.unit)
    ensures var rebuilt := RebuildStep(m, task, Found(row), t0);
            var locked := rebuilt[task.lockKey := Entry(Text(LOCK_VALUE), Some(now + 1000 * LOCK_TTL_SECONDS))];
            var r := DoubleCheckStep(locked, task.key, task.lockKey, id, time, unit, now);
            && r == Logical(Returned(Some(row)), None, locked)
            && Read(r.strings, task.lockKey, now) == Some(Text(LOCK_VALUE))
  {
    var rebuilt := RebuildStep(m, task, Found(row), t0);
    var locked := rebuilt[task.lockKey := Entry(Text(LOCK_VALUE), Some(now + 1000 * LOCK_TTL_SECONDS))];
    assert locked[task.key] == rebuilt[task.key];
  }

  /** The cache helper over one store. */
  class CacheClient {
    const redis: Store

    constructor (redis: Store)
      ensures this.redis == redis
    {
      this.redis := redis;
    }

    /** set(key, value, time, unit): the bean's JSON with a TTL. */
    method Set(key: string, value: Record, time: nat, unit: TimeUnit, now: nat)
      modifies redis`strings
      ensures redis.strings == old(redis.strings)[key := Entry(Json(value), Some(now + ToMillis(time, unit)))]
      ensures Read(redis.strings, key, now + ToMillis(time, unit)).None?
    {
      redis.SetEx(key, Json(value), ToMillis(time, unit), now);
    }

    /** setWithLogicalExpire(key, value, time, unit): the envelope, with no TTL; only its
        expiry instant, whole seconds from `now`, ages it. */
    method SetWithLogicalExpire(key: string, value: Option<Record>, time: nat, unit: TimeUnit, now: nat)
      modifies redis`strings
      ensures redis.strings == old(redis.strings)[key := Entry(Envelope(RedisData(value, Some(now + 1000 * ToSeconds(time, unit)))), None)]
      ensures forall t :: Read(redis.strings, key, t).Some?
    {
      var env := RedisData(value, Some(now + 1000 * ToSeconds(time, unit)));
      redis.Set(key, Envelope(env));
    }

    method QueryWithPassThrough(keyPrefix: string, id: nat, dbFallback: nat -> Lookup,
                                time: nat, unit: TimeUnit, now: nat) returns (r: Outcome<Record>, queried: bool)
      modifies redis`strings
      ensures PassThrough(r, queried, redis.strings) == PassThroughStep(old(redis.strings), keyPrefix, id, dbFallback, time, unit, now)
    {
      var key := keyPrefix + Decimal(id);
      var json := redis.Get(key, now);
      queried := false;
      if !BlankReply(json) {
        r := DecodeBean(json.value);
        return;
      }
      if json.Some? {
        r := Returned(None);
        return;
      }
      queried := true;
      match dbFallback(id)
      case Raises =>
        r := Threw;
      case NotFound =>
        redis.SetEx(key, Text(""), ToMillis(CACHE_NULL_TTL, Minutes), now);
        r := Returned(None);
      case Found(row) =>
        Set(key, row, time, unit, now);
        r := Returned(Some(row));
    }

    method GetWithLogicalExpire(key: string, now: nat) returns (r: Outcome<RedisData>)
      ensures r == EnvelopeAt(redis.strings, key, now)
    {
      var json := redis.Get(key, now);
      if BlankReply(json) {
        return Returned(None);
      }
      match json.value
      case Envelope(env) => r := Returned(Some(env));
      case Json(_) => r := Returned(Some(RedisData(None, None)));
      case Text(_) => r := Threw;
      case Num(_) => r := Threw;
    }

    /** queryWithLogicalExpire: the submitted rebuild, if any, is returned for the
        executor to run later with RunRebuild. */
    method QueryWithLogicalExpire(keyPrefix: string, id: nat, time: nat, unit: TimeUnit, now: nat)
      returns (r: Outcome<Record>, task: Option<Rebuild>)
      modifies redis`strings
      ensures Logical(r, task, redis.strings) == LogicalStep(old(redis.strings), keyPrefix, id, time, unit, now)
    {
      var key := keyPrefix + Decimal(id);
      var redisData := GetWithLogicalExpire(key, now);
      task := None;
      if redisData.Threw? {
        return Threw, None;
      }
      if redisData.result.None? {
        return Returned(None), None;
      }
      var env := redisData.result.value;
      if env.expireTime.None? {
        return Threw, None;
      }
      r := Returned(env.data);
      if FreshAt(env, now) {
        return;
      }
      var lockKey := LOCK_SHOP_KEY + Decimal(id);
      var isLock := TryLock(lockKey, now);
      if isLock {
        r, task := DoubleCheck(key, lockKey, id, time, unit, now);
      }
    }

    /** The double-check a lock winner runs before submitting a rebuild. */
    method DoubleCheck(key: string, lockKey: string, id: nat, time: nat, unit: TimeUnit, now: nat)
      returns (r: Outcome<Record>, task: Option<Rebuild>)
      ensures Logical(r, task, redis.strings) == DoubleCheckStep(redis.strings, key, lockKey, id, time, unit, now)
    {
      var redisData := GetWithLogicalExpire(key, now);
      task := None;
      if redisData.Threw? {
        return Threw, None;
      }
      if redisData.result.None? {
        return Returned(None), None;
      }
      var env := redisData.result.value;
      if env.expireTime.None? {
        return Threw, None;
      }
      r := Returned(env.data);
      if !FreshAt(env, now) {
        task := Some(Rebuild(key, lockKey, id, time, unit));
      }
    }

    /** The submitted task, run by the executor at `now` with the database as it is then;
        `failed` says whether it ended in an exception. */
    method RunRebuild(task: Rebuild, dbFallback: nat -> Lookup, now: nat) returns (failed: bool)
      modifies redis`strings
      ensures failed <==> dbFallback(task.id).Raises?
      ensures redis.strings == RebuildStep(old(redis.strings), task, dbFallback(task.id), now)
    {
      var r1 := dbFallback(task.id);
      failed := r1.Raises?;
      if !failed {
        SetWithLogicalExpire(task.key, if r1.Found? then Some(r1.row) else None, task.time, task.unit, now);
      }
      Unlock(task.lockKey);
    }

    /** tryLock(key): SET key "1" NX EX 10. */
    method TryLock(key: string, now: nat) returns (ok: bool)
      modifies redis`strings
      ensures ok <==> Read(old(redis.strings), key, now).None?
      ensures redis.strings == if ok then old(redis.strings)[key := Entry(Text(LOCK_VALUE), Some(now + 1000 * LOCK_TTL_SECONDS))]
                               else old(redis.strings)
    {
      ok := redis.SetIfAbsent(key, Text(LOCK_VALUE), 1000 * LOCK_TTL_SECONDS, now);
    }

    /** unlock(key): DEL key, whoever set it. */
    method Unlock(key: string)
      modifies redis`strings
      ensures redis.strings == old(redis.strings) - {key}
    {
      redis.Delete(key);
    }
  }
}
