/** RedisIdWorker: 64-bit order ids made of the seconds elapsed since 2022-01-01
    (high bits) and a per-prefix, per-day sequence number (low 32 bits). */
module RedisIdWorker {
  import opened Wrappers
  import opened Texts
  import opened Clock
  import opened Redis

  /** The epoch of the id timestamps: 2022-01-01T00:00:00Z in epoch seconds. */
  const BEGIN_TIMESTAMP: int := 1640995200
  /** The number of low bits that hold the sequence number. */
  const COUNT_BITS: nat := 32

  const TWO_32: int := 0x1_0000_0000
  const TWO_63: int := 0x8000_0000_0000_0000
  const TWO_64: int := 0x1_0000_0000_0000_0000

  /** A Java long. */
  predicate IsLong(x: int)
  {
    -TWO_63 <= x < TWO_63
  }

  /** The 64 bits of a long, read as an unsigned number. */
  function Unsigned(x: int): (u: nat)
    requires IsLong(x)
    ensures u < TWO_64
  {
    if x >= 0 then x else x + TWO_64
  }

  /** The long whose bits are the low 64 bits of `u` (Java's wrap-around). */
  function Signed(u: nat): (x: int)
    ensures IsLong(x)
  {
    var w := u % TWO_64;
    if w < TWO_63 then w else w - TWO_64
  }

  /** Bitwise OR of two bit patterns. */
  function BitOr(a: nat, b: nat): nat
    decreases a + b
  {
    if a == 0 then b
    else if b == 0 then a
    else 2 * BitOr(a / 2, b / 2) + (if a % 2 == 1 || b % 2 == 1 then 1 else 0)
  }

  /** `timestamp << COUNT_BITS | count` on Java longs: the shift drops the bits
      pushed past bit 63, and nothing keeps `count` out of the timestamp's bits. */
  function ComposeId(timestamp: int, count: int): (id: int)
    requires IsLong(timestamp) && IsLong(count)
    ensures IsLong(id)
  {
    Signed(BitOr((Unsigned(timestamp) * TWO_32) % TWO_64, Unsigned(count)))
  }

  /** OR-ing a number into zero low bits is adding it. */
  lemma {:induction false} BitOrIntoZeroBits(a: nat, c: nat, k: nat)
    requires c < Pow2(k)
    ensures BitOr(a * Pow2(k), c) == a * Pow2(k) + c
  {
    if k == 0 {
      assert c == 0;
    } else if a * Pow2(k) == 0 || c == 0 {
    } else {
      var h := a * Pow2(k - 1);
      assert a * Pow2(k) == 2 * h;
      assert (2 * h) / 2 == h && (2 * h) % 2 == 0;
      BitOrIntoZeroBits(a, c / 2, k - 1);
    }
  }

  lemma {:induction false} Pow2Add(a: nat, b: nat)
    ensures Pow2(a + b) == Pow2(a) * Pow2(b)
  {
    if a > 0 {
      Pow2Add(a - 1, b);
    }
  }

  lemma Pow2Is2To32()
    ensures Pow2(32) == TWO_32
  {
    assert Pow2(2) == 4;
    Pow2Add(2, 2);
    Pow2Add(4, 4);
    Pow2Add(8, 8);
    Pow2Add(16, 16);
  }

  /** The begin timestamp is the epoch second of midnight, 1 January 2022 (what `main` prints). */
  lemma BeginTimestampIs2022()
    ensures EpochSecond(LocalDateTime(2022, 1, 1, 0, 0, 0)) == BEGIN_TIMESTAMP
  {
  }

  /** A timestamp below 2^31 shifted left by 32 bits stays a non-negative long. */
  lemma ShiftFits(t: int)
    requires 0 <= t < 0x8000_0000
    ensures 0 <= t * TWO_32 <= TWO_63 - TWO_32
    ensures (t * TWO_32) % TWO_64 == t * TWO_32
  {
  }

  /** A number that fits in 63 bits reads back as the same long. */
  lemma SignedOfSmall(x: nat)
    requires x < TWO_63
    ensures Signed(x) == x
  {
  }

  /** Division by 2^32 splits t * 2^32 + c back into t and c. */
  lemma SplitAt32(t: int, c: int)
    requires 0 <= c < TWO_32
    ensures (t * TWO_32 + c) / TWO_32 == t && (t * TWO_32 + c) % TWO_32 == c
  {
  }

  /** Within the bounds the source relies on, the id is timestamp * 2^32 + count:
      the timestamp comes back from the high bits and the count from the low 32 bits. */
  lemma ComposeIdRoundTrip(timestamp: int, count: int)
    requires 0 <= timestamp < 0x8000_0000 && 0 <= count < TWO_32
    ensures ComposeId(timestamp, count) == timestamp * TWO_32 + count
    ensures ComposeId(timestamp, count) / TWO_32 == timestamp
    ensures ComposeId(timestamp, count) % TWO_32 == count
  {
    ShiftFits(timestamp);
    Pow2Is2To32();
    BitOrIntoZeroBits(timestamp, count, 32);
    SignedOfSmall(timestamp * TWO_32 + count);
    SplitAt32(timestamp, count);
  }

  /** Ids are ordered by their timestamps first: a later second gives a larger id
      whatever the two counts, and within one second distinct counts give distinct ids. */
  lemma {:induction false} ComposeIdOrdered(t1: int, c1: int, t2: int, c2: int)
    requires 0 <= t1 < 0x8000_0000 && 0 <= c1 < TWO_32
    requires 0 <= t2 < 0x8000_0000 && 0 <= c2 < TWO_32
    ensures t1 < t2 ==> ComposeId(t1, c1) < ComposeId(t2, c2)
    ensures t1 == t2 ==> (ComposeId(t1, c1) < ComposeId(t2, c2) <==> c1 < c2)
    ensures ComposeId(t1, c1) == ComposeId(t2, c2) <==> t1 == t2 && c1 == c2
  {
    ComposeIdRoundTrip(t1, c1);
    ComposeIdRoundTrip(t2, c2);
    if t1 < t2 {
      assert t1 * TWO_32 + c1 < (t1 + 1) * TWO_32 <= t2 * TWO_32;
    } else if t2 < t1 {
      assert t2 * TWO_32 + c2 < (t2 + 1) * TWO_32 <= t1 * TWO_32;
    }
  }

  /** Nothing bounds the count: in an even second, count 2^32 + k carries into the
      timestamp bits and gives the id that count k gets in the next second. */
  lemma {:induction false} CountOverflowCollides(t: int, k: int)
    requires 0 <= t < 0x7FFF_FFFF && t % 2 == 0 && 0 <= k < TWO_32
    ensures ComposeId(t, TWO_32 + k) == ComposeId(t + 1, k)
  {
    var h := t / 2;
    assert t * TWO_32 == h * (2 * TWO_32);
    ShiftFits(t);
    assert Unsigned(t) == t && Unsigned(TWO_32 + k) == TWO_32 + k;
    OrBelowEvenShift(h, TWO_32 + k);
    SignedOfSmall((t + 1) * TWO_32 + k);
    ComposeIdRoundTrip(t + 1, k);
  }

  /** OR-ing a number below 2^33 into a multiple of 2^33 is adding it. */
  lemma OrBelowEvenShift(h: nat, c: nat)
    requires c < 2 * TWO_32
    ensures BitOr(h * (2 * TWO_32), c) == h * (2 * TWO_32) + c
  {
    Pow2Is2To32();
    Pow2Add(32, 1);
    BitOrIntoZeroBits(h, c, 33);
  }

  /** Nothing bounds the timestamp: from 2^31 seconds after 2022 the sign bit is set,
      and the id is timestamp * 2^32 + count less 2^64, a negative long. */
  lemma {:induction false} TimestampOverflowTurnsNegative(t: int, c: int)
    requires 0x8000_0000 <= t < TWO_32 && 0 <= c < TWO_32
    ensures ComposeId(t, c) == t * TWO_32 + c - TWO_64
    ensures ComposeId(t, c) < 0
  {
    Pow2Is2To32();
    var shifted := t * TWO_32;
    assert TWO_63 <= shifted <= TWO_64 - TWO_32;
    assert (Unsigned(t) * TWO_32) % TWO_64 == shifted;
    BitOrIntoZeroBits(t, c, 32);
    assert BitOr(shifted, Unsigned(c)) == shifted + c;
  }

  /** The counter key: "icr:" + keyPrefix + ":" + the day, one counter per prefix per day. */
  function CounterKey(keyPrefix: string, day: string): string
  {
    "icr:" + keyPrefix + ":" + day
  }

  /** The outcome of one nextId call: the id (None where the increment raised) and the
      string keys afterwards. */
  datatype IdStep = IdStep(id: Option<int>, strings: Strings)

  /** INCR of the counter `key` at time `nowMs`: the new count (None where Redis
      raises) and the string keys afterwards. */
  function CountStep(m: Strings, key: string, nowMs: nat): (r: (Option<int>, Strings))
    ensures r.0.None? <==> Read(m, key, nowMs).Some? && (!Read(m, key, nowMs).value.Num? || Read(m, key, nowMs).value.n as int == MAX_LONG)
    ensures r.0.None? ==> r.1 == m
    ensures r.0.Some? ==> r.0.value == CountAfter(m, key, nowMs) && key in r.1 && r.1[key].value.Num? && r.1[key].value.n as int == r.0.value
    ensures r.1 - {key} == m - {key}
  {
    match Read(m, key, nowMs)
    case None => (Some(1), m[key := Entry(Num(1), None)])
    case Some(Num(k)) =>
      if (k as int) < MAX_LONG then (Some(k as int + 1), m[key := Entry(Num(k + 1), m[key].expireAt)])
      else (None, m)
    case Some(_) => (None, m)
  }

  /** nextId as a function of the store's string keys and the two readings it takes of
      the clock: the epoch second (a long) and the day formatted as yyyy:MM:dd. */
  function NextIdStep(m: Strings, keyPrefix: string, nowSecond: nat, day: string): (r: IdStep)
    requires nowSecond < TWO_63
    ensures r.id.Some? <==> CountStep(m, CounterKey(keyPrefix, day), nowSecond * 1000).0.Some?
    ensures r.id.Some? ==>
              r.id.value == ComposeId(nowSecond - BEGIN_TIMESTAMP, CountAfter(m, CounterKey(keyPrefix, day), nowSecond * 1000))
    ensures r.strings - {CounterKey(keyPrefix, day)} == m - {CounterKey(keyPrefix, day)}
  {
    var timestamp := nowSecond - BEGIN_TIMESTAMP;
    var incr := CountStep(m, CounterKey(keyPrefix, day), nowSecond * 1000);
    IdStep(if incr.0.Some? then Some(ComposeId(timestamp, incr.0.value)) else None, incr.1)
  }

  /** The count nextId combines: one more than the counter's current value. */
  function CountAfter(m: Strings, key: string, now: nat): int
  {
    match Read(m, key, now)
    case Some(Num(k)) => k as int + 1
    case _ => 1
  }

  /** A successful increment of a counter without TTL stores the count it returns. */
  lemma CountStepUses(m: Strings, key: string, nowMs: nat)
    requires key !in m || m[key].expireAt.None?
    requires CountStep(m, key, nowMs).0.Some?
    ensures IsLong(CountAfter(m, key, nowMs))
    ensures CountStep(m, key, nowMs).0 == Some(CountAfter(m, key, nowMs))
    ensures key in CountStep(m, key, nowMs).1
    ensures CountStep(m, key, nowMs).1[key] == Entry(Num(CountAfter(m, key, nowMs) as Long), None)
  {
  }

  /** The increment after a successful one on the same counter returns the next count. */
  lemma CountStepTwice(m: Strings, key: string, n1: nat, n2: nat)
    requires key !in m || m[key].expireAt.None?
    requires CountStep(m, key, n1).0.Some?
    requires 0 <= CountAfter(m, key, n1) < TWO_32 - 1
    ensures CountStep(CountStep(m, key, n1).1, key, n2).0 == Some(CountAfter(m, key, n1) + 1)
  {
    CountStepUses(m, key, n1);
    assert Read(CountStep(m, key, n1).1, key, n2) == Some(Num(CountAfter(m, key, n1) as Long));
  }

  /** Where the counter key carries no TTL, a successful call stores the count it
      used and packs exactly that count. */
  lemma NextIdStepUses(m: Strings, keyPrefix: string, nowSecond: nat, day: string)
    requires nowSecond < TWO_63
    requires var key := CounterKey(keyPrefix, day); key !in m || m[key].expireAt.None?
    requires NextIdStep(m, keyPrefix, nowSecond, day).id.Some?
    ensures var c := CountAfter(m, CounterKey(keyPrefix, day), nowSecond * 1000);
            var next := NextIdStep(m, keyPrefix, nowSecond, day);
            && IsLong(c)
            && next.id == Some(ComposeId(nowSecond - BEGIN_TIMESTAMP, c))
            && CounterKey(keyPrefix, day) in next.strings
            && next.strings[CounterKey(keyPrefix, day)] == Entry(Num(c as Long), None)
  {
    CountStepUses(m, CounterKey(keyPrefix, day), nowSecond * 1000);
  }

  /** The call after a successful one on the same day uses the next count. */
  lemma NextCallUsesNextCount(m: Strings, keyPrefix: string, s1: nat, s2: nat, day: string)
    requires s1 < TWO_63 && s2 < TWO_63
    requires var key := CounterKey(keyPrefix, day); key !in m || m[key].expireAt.None?
    requires NextIdStep(m, keyPrefix, s1, day).id.Some?
    requires 0 <= CountAfter(m, CounterKey(keyPrefix, day), s1 * 1000) < TWO_32 - 1
    ensures var c := CountAfter(m, CounterKey(keyPrefix, day), s1 * 1000);
            NextIdStep(NextIdStep(m, keyPrefix, s1, day).strings, keyPrefix, s2, day).id
              == Some(ComposeId(s2 - BEGIN_TIMESTAMP, c + 1))
  {
    CountStepTwice(m, CounterKey(keyPrefix, day), s1 * 1000, s2 * 1000);
  }

  /** Two successive calls for the same prefix on the same day, the second no earlier
      than the first, give strictly increasing ids, as long as the day's count stays
      below 2^32 and the clock lies between 2022 and 2^31 seconds after it. */
  lemma SuccessiveIdsIncrease(m: Strings, keyPrefix: string, s1: nat, s2: nat, day: string)
    requires BEGIN_TIMESTAMP <= s1 <= s2 < BEGIN_TIMESTAMP + 0x8000_0000
    requires var key := CounterKey(keyPrefix, day); key !in m || m[key].expireAt.None?
    requires NextIdStep(m, keyPrefix, s1, day).id.Some?
    requires 0 <= CountAfter(m, CounterKey(keyPrefix, day), s1 * 1000) < TWO_32 - 1
    ensures var first := NextIdStep(m, keyPrefix, s1, day);
            var second := NextIdStep(first.strings, keyPrefix, s2, day);
            second.id.Some? && first.id.value < second.id.value
  {
    var key := CounterKey(keyPrefix, day);
    var c := CountAfter(m, key, s1 * 1000);
    CountStepUses(m, key, s1 * 1000);
    CountStepTwice(m, key, s1 * 1000, s2 * 1000);
    ComposeIdOrdered(s1 - BEGIN_TIMESTAMP, c, s2 - BEGIN_TIMESTAMP, c + 1);
  }

  /** The id generator over the shared store. */
  class IdWorker {
    const redis: Store

    constructor (redis: Store)
      ensures this.redis == redis
    {
      this.redis := redis;
    }

    /** nextId: read the clock, INCR the day's counter for the prefix and pack the
        count with the timestamp. */
    method NextId(keyPrefix: string, now: LocalDateTime) returns (id: Option<int>)
      requires ValidTime(now)
      modifies redis`strings
      ensures id == NextIdStep(old(redis.strings), keyPrefix, EpochSecond(now), FormatDay(now)).id
      ensures redis.strings == NextIdStep(old(redis.strings), keyPrefix, EpochSecond(now), FormatDay(now)).strings
    {
      var nowSecond := EpochSecond(now);
      var timestamp := nowSecond - BEGIN_TIMESTAMP;
      var date := FormatDay(now);
      var count := redis.Increment("icr:" + keyPrefix + ":" + date, EpochMilli(now));
      if count.None? {
        return None;
      }
      id := Some(ComposeId(timestamp, count.value as int));
    }
  }
}
