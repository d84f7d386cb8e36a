/** SimpleRedisLock: a named lock held as the string key "lock:" + name, whose value
    is the owner's token and whose TTL is the lease. Acquire is SET NX; release is a
    compare-and-delete that only removes the key while it still holds the caller's token. */
module SimpleRedisLock {
  import opened Wrappers
  import opened Texts
  import opened Redis

  const KEY_PREFIX: string := "lock:"

  predicate IsHexDigit(c: char)
  {
    ('0' <= c <= '9') || ('a' <= c <= 'f')
  }

  /** ID_PREFIX: a random UUID drawn once per JVM, written without dashes
      (32 hexadecimal digits), followed by "-". */
  predicate IsIdPrefix(p: string)
  {
    |p| == 33 && p[32] == '-' && forall i :: 0 <= i < 32 ==> IsHexDigit(p[i])
  }

  /** The owner token of a thread: ID_PREFIX + Thread.getId(). */
  function OwnerToken(idPrefix: string, threadId: nat): string
  {
    idPrefix + Decimal(threadId)
  }

  /** Tokens tell owners apart: two JVMs with different UUIDs never share a token, even for
      equal thread ids, and within one JVM different threads have different tokens. */
  lemma OwnerTokensDistinct(p1: string, t1: nat, p2: string, t2: nat)
    requires IsIdPrefix(p1) && IsIdPrefix(p2)
    requires p1 != p2 || t1 != t2
    ensures OwnerToken(p1, t1) != OwnerToken(p2, t2)
  {
    if OwnerToken(p1, t1) == OwnerToken(p2, t2) {
      var s := OwnerToken(p1, t1);
      assert s[..33] == p1 && s[..33] == p2;
      assert s[33..] == Decimal(t1) && s[33..] == Decimal(t2);
      DecimalInjective(t1, t2);
      assert false;
    }
  }

  /** The key that holds the lock called `name`. */
  function LockKey(name: string): string
  {
    KEY_PREFIX + name
  }

  /** The result of tryLock: whether it acquired, and the string keys afterwards. */
  datatype Acquire = Acquire(ok: bool, strings: Strings)

  /** tryLock(timeoutSec) by the holder of `token`: SET lock:name token NX EX timeoutSec. */
  function TryLockStep(m: Strings, name: string, token: string, timeoutSec: nat, now: nat): (r: Acquire)
    ensures r.ok <==> Read(m, LockKey(name), now).None?
    ensures r.ok ==> forall t :: now <= t < now + 1000 * timeoutSec ==> Read(r.strings, LockKey(name), t) == Some(Text(token))
    ensures r.ok ==> Read(r.strings, LockKey(name), now + 1000 * timeoutSec).None?
    ensures !r.ok ==> r.strings == m
    ensures forall k :: k != LockKey(name) ==> Read(r.strings, k, now) == Read(m, k, now)
  {
    var key := LockKey(name);
    if Read(m, key, now).None? then Acquire(true, m[key := Entry(Text(token), Some(now + 1000 * timeoutSec))])
    else Acquire(false, m)
  }

  /** unlock by the holder of `token`: the unlock script deletes the key only when it
      still holds that token. */
  function UnlockStep(m: Strings, name: string, token: string, now: nat): (r: Strings)
    ensures Read(m, LockKey(name), now) == Some(Text(token)) ==> Read(r, LockKey(name), now).None?
    ensures Read(m, LockKey(name), now) != Some(Text(token)) ==> r == m
    ensures forall k :: k != LockKey(name) ==> Read(r, k, now) == Read(m, k, now)
  {
    var key := LockKey(name);
    if Read(m, key, now) == Some(Text(token)) then m - {key} else m
  }

  /** While the lease lasts, every other tryLock fails and leaves the owner in place;
      this holds for the owner's own token too, so the lock is not reentrant. */
  lemma {:induction false} HeldLockExcludes(m: Strings, name: string, owner: string, other: string,
                                          lease: nat, t0: nat, t1: nat, lease1: nat)
    requires TryLockStep(m, name, owner, lease, t0).ok
    requires t0 <= t1 < t0 + 1000 * lease
    ensures var held := TryLockStep(m, name, owner, lease, t0).strings;
            && !TryLockStep(held, name, other, lease1, t1).ok
            && TryLockStep(held, name, other, lease1, t1).strings == held
            && Read(held, LockKey(name), t1) == Some(Text(owner))
  {
    var held := TryLockStep(m, name, owner, lease, t0).strings;
    assert held[LockKey(name)] == Entry(Text(owner), Some(t0 + 1000 * lease));
  }

  /** The owner's unlock during the lease frees the lock, and the next tryLock succeeds. */
  lemma {:induction false} OwnerUnlockFrees(m: Strings, name: string, owner: string, next: string,
                                          lease: nat, t0: nat, t1: nat, lease1: nat)
    requires TryLockStep(m, name, owner, lease, t0).ok
    requires t0 <= t1 < t0 + 1000 * lease
    ensures var freed := UnlockStep(TryLockStep(m, name, owner, lease, t0).strings, name, owner, t1);
            && LockKey(name) !in freed
            && TryLockStep(freed, name, next, lease1, t1).ok
  {
    var held := TryLockStep(m, name, owner, lease, t0).strings;
    assert held[LockKey(name)] == Entry(Text(owner), Some(t0 + 1000 * lease));
  }

  /** After the owner's lease ran out and another thread acquired the lock, the old
      owner's unlock leaves the new owner's key in place. */
  lemma {:induction false} StaleUnlockSparesNewOwner(m: Strings, name: string, a: string, b: string,
                                                   leaseA: nat, leaseB: nat, t0: nat, t1: nat, t2: nat)
    requires a != b
    requires TryLockStep(m, name, a, leaseA, t0).ok
    requires t0 + 1000 * leaseA <= t1 <= t2 < t1 + 1000 * leaseB
    ensures var heldA := TryLockStep(m, name, a, leaseA, t0).strings;
            var b1 := TryLockStep(heldA, name, b, leaseB, t1);
            && b1.ok
            && Read(UnlockStep(b1.strings, name, a, t2), LockKey(name), t2) == Some(Text(b))
  {
    var key := LockKey(name);
    var heldA := TryLockStep(m, name, a, leaseA, t0).strings;
    assert heldA[key] == Entry(Text(a), Some(t0 + 1000 * leaseA));
    var b1 := TryLockStep(heldA, name, b, leaseB, t1);
    assert b1.strings[key] == Entry(Text(b), Some(t1 + 1000 * leaseB));
  }

  /** Why release must be one atomic script: the earlier unlock read the key, compared
      tokens and then deleted in a separate command. If the lease runs out between the
      read and the delete and another thread acquires, that delete removes the other
      thread's lock. */
  lemma {:induction false} ReadThenDeleteRace(m: Strings, name: string, a: string, b: string,
                                            leaseA: nat, leaseB: nat, t0: nat, tRead: nat, t1: nat)
    requires TryLockStep(m, name, a, leaseA, t0).ok
    requires t0 <= tRead < t0 + 1000 * leaseA <= t1
    ensures var heldA := TryLockStep(m, name, a, leaseA, t0).strings;
            var b1 := TryLockStep(heldA, name, b, leaseB, t1);
            && Read(heldA, LockKey(name), tRead) == Some(Text(a))
            && b1.ok
            && Read(b1.strings - {LockKey(name)}, LockKey(name), t1).None?
  {
    var heldA := TryLockStep(m, name, a, leaseA, t0).strings;
    assert heldA[LockKey(name)] == Entry(Text(a), Some(t0 + 1000 * leaseA));
  }

  /** One lock object: a name, the store, and the JVM's ID_PREFIX. */
  class SimpleRedisLock {
    const name: string
    const redis: Store
    const idPrefix: string

    constructor (name: string, redis: Store, idPrefix: string)
      ensures this.name == name && this.redis == redis && this.idPrefix == idPrefix
    {
      this.name := name;
      this.redis := redis;
      this.idPrefix := idPrefix;
    }

    /** tryLock(timeoutSec), called on the thread `threadId`. */
    method TryLock(timeoutSec: nat, threadId: nat, now: nat) returns (ok: bool)
      modifies redis`strings
      ensures ok == TryLockStep(old(redis.strings), name, OwnerToken(idPrefix, threadId), timeoutSec, now).ok
      ensures redis.strings == TryLockStep(old(redis.strings), name, OwnerToken(idPrefix, threadId), timeoutSec, now).strings
    {
      var threadToken := idPrefix + Decimal(threadId);
      ok := redis.SetIfAbsent(KEY_PREFIX + name, Text(threadToken), 1000 * timeoutSec, now);
    }

    /** unlock(), called on the thread `threadId`: runs the compare-and-delete script. */
    method Unlock(threadId: nat, now: nat)
      modifies redis`strings
      ensures redis.strings == UnlockStep(old(redis.strings), name, OwnerToken(idPrefix, threadId), now)
    {
      var key := KEY_PREFIX + name;
      var stored := redis.Get(key, now);
      if stored == Some(Text(idPrefix + Decimal(threadId))) {
        redis.Delete(key);
      }
    }
  }
}
