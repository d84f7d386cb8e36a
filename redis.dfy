/** The remote key-value store the services share, as the services see it through
    StringRedisTemplate: string keys with TTLs, hashes, bitmaps and sorted sets.
    Time is a parameter `now`, in milliseconds since the epoch; an entry whose
    expiry is not after `now` reads as absent, as Redis's expiry does. */
module Redis {
  import opened Wrappers
  import opened Texts

  /** An entity bean (a Shop row, a User row): its id (None where null) and its other
      columns. */
  datatype Record = Record(id: Option<nat>, columns: map<string, string>)

  /** The bean toBean makes from a JSON object that has none of its fields: the id and
      every column null. */
  const EMPTY_BEAN: Record := Record(None, map[])

  /** RedisData, the logical-expiry envelope: a field is None where it was null;
      `expireTime` is a wall-clock instant in milliseconds. */
  datatype RedisData = RedisData(data: Option<Record>, expireTime: Option<nat>)

  /** What a string key holds. `Json` and `Envelope` stand for the JSON text that
      JSONUtil.toJsonStr writes for a bean or for an envelope; decoding such a text
      gives back the value it was written from. `Num` is a counter kept by INCR. */
  datatype Value = Text(s: string) | Json(doc: Record) | Envelope(env: RedisData) | Num(n: Long)

  /** Long.MAX_VALUE, the largest counter INCR produces. */
  const MAX_LONG: int := 0x7FFF_FFFF_FFFF_FFFF

  /** A 64-bit signed integer, the range of Redis counters and Java longs. */
  newtype Long = x: int | -0x8000_0000_0000_0000 <= x <= 0x7FFF_FFFF_FFFF_FFFF

  datatype Entry = Entry(value: Value, expireAt: Option<nat>)

  type Strings = map<string, Entry>

  predicate Alive(e: Entry, now: nat)
  {
    e.expireAt.None? || now < e.expireAt.value
  }

  /** GET: the value of a key that exists and has not expired. */
  function Read(m: Strings, key: string, now: nat): (v: Option<Value>)
    ensures v.Some? <==> key in m && Alive(m[key], now)
    ensures v.Some? ==> v.value == m[key].value
  {
    if key in m && Alive(m[key], now) then Some(m[key].value) else None
  }

  /** StrUtil.isBlank of the text a GET returned: null is blank, and so is a text of
      blank characters only; the JSON of a bean or an envelope and a number never are. */
  predicate BlankReply(v: Option<Value>)
  {
    match v
    case None => true
    case Some(Text(s)) => IsBlank(s)
    case Some(_) => false
  }

  /** The java.util.concurrent.TimeUnit values the services pass. */
  datatype TimeUnit = Milliseconds | Seconds | Minutes | Hours | Days

  /** A TTL in milliseconds, as the store applies it. */
  function ToMillis(time: nat, unit: TimeUnit): (ms: nat)
    ensures unit == Seconds ==> ms == 1000 * time
    ensures unit == Minutes ==> ms == 60000 * time
  {
    match unit
    case Milliseconds => time
    case Seconds => 1000 * time
    case Minutes => 60000 * time
    case Hours => 3600000 * time
    case Days => 86400000 * time
  }

  /** TimeUnit.toSeconds: truncates, so 999 milliseconds are 0 seconds. */
  function ToSeconds(time: nat, unit: TimeUnit): (s: nat)
    ensures 1000 * s <= ToMillis(time, unit)
  {
    match unit
    case Milliseconds => time / 1000
    case Seconds => time
    case Minutes => 60 * time
    case Hours => 3600 * time
    case Days => 86400 * time
  }

  /** A hash key: its fields and its expiry. */
  datatype HashEntry = HashEntry(fields: map<string, string>, expireAt: Option<nat>)

  /** One member of a sorted set with its score. */
  datatype Scored = Scored(member: string, score: int)

  /** A sorted set, kept in ascending score order. Members with equal scores keep the
      order in which they were added (Redis breaks such ties by member text). */
  type ZSet = seq<Scored>

  ghost predicate ZValid(z: ZSet)
  {
    ZDistinct(z) && Ascending(z)
  }

  ghost predicate Ascending(z: ZSet)
  {
    forall i, j :: 0 <= i < j < |z| ==> z[i].score <= z[j].score
  }

  ghost predicate ZDistinct(z: ZSet)
  {
    z == [] || (z[0].member !in ZMembers(z[1..]) && ZDistinct(z[1..]))
  }

  function ZMembers(z: ZSet): set<string>
  {
    if z == [] then {} else {z[0].member} + ZMembers(z[1..])
  }

  /** ZSCORE: the member's score, or null when it is not in the set. */
  function ZScoreOf(z: ZSet, member: string): (r: Option<int>)
    ensures r.Some? <==> member in ZMembers(z)
    ensures r.Some? ==> Scored(member, r.value) in z
  {
    if z == [] then None
    else if z[0].member == member then Some(z[0].score)
    else ZScoreOf(z[1..], member)
  }

  /** ZREM of one member. */
  function ZRemove(z: ZSet, member: string): (r: ZSet)
    requires ZValid(z)
    ensures ZValid(r)
    ensures ZMembers(r) == ZMembers(z) - {member}
    ensures forall x :: x in r ==> x in z
    ensures member in ZMembers(z) ==> |r| == |z| - 1
    ensures member !in ZMembers(z) ==> r == z
  {
    if z == [] then []
    else if z[0].member == member then z[1..]
    else
      var rest := ZRemove(z[1..], member);
      [z[0]] + rest
  }

  /** Inserts a member that is not in the set after every entry whose score is not larger. */
  function ZInsert(z: ZSet, e: Scored): (r: ZSet)
    requires ZValid(z) && e.member !in ZMembers(z)
    ensures ZValid(r)
    ensures ZMembers(r) == ZMembers(z) + {e.member}
    ensures |r| == |z| + 1
    ensures forall x :: x in r ==> x == e || x in z
  {
    if z == [] || e.score < z[0].score then [e] + z
    else
      var rest := ZInsert(z[1..], e);
      [z[0]] + rest
  }

  /** ZADD: sets the member's score, adding the member if it is new. */
  function ZAddTo(z: ZSet, member: string, score: int): (r: ZSet)
    requires ZValid(z)
    ensures ZValid(r)
    ensures ZMembers(r) == ZMembers(z) + {member}
    ensures ZScoreOf(r, member) == Some(score)
  {
    var r := ZInsert(ZRemove(z, member), Scored(member, score));
    ZScoreAfterInsert(ZRemove(z, member), Scored(member, score));
    r
  }

  lemma ZScoreAfterInsert(z: ZSet, e: Scored)
    requires ZValid(z) && e.member !in ZMembers(z)
    ensures ZScoreOf(ZInsert(z, e), e.member) == Some(e.score)
  {
    if z != [] && e.score >= z[0].score {
      ZScoreAfterInsert(z[1..], e);
    }
  }

  /** Removing a member just inserted gives back the set it was inserted into. */
  lemma {:induction false} ZRemoveInsert(z: ZSet, e: Scored)
    requires ZValid(z) && e.member !in ZMembers(z)
    ensures ZRemove(ZInsert(z, e), e.member) == z
  {
    if z != [] && e.score >= z[0].score {
      assert ZValid(z[1..]) && e.member !in ZMembers(z[1..]);
      ZRemoveInsert(z[1..], e);
    }
  }

  /** ZRANGE key 0 stop: the lowest-scored members, at most stop + 1 of them, lowest first. */
  function ZRangeHead(z: ZSet, stop: nat): (r: ZSet)
    ensures |r| == if |z| <= stop then |z| else stop + 1
    ensures r == z[..|r|]
  {
    if |z| <= stop then z else z[..stop + 1]
  }

  /** The entries whose score lies in [min, max], in descending score order. */
  function DescendingIn(z: ZSet, min: int, max: int): (r: ZSet)
    ensures forall i :: 0 <= i < |r| ==> min <= r[i].score <= max && r[i] in z
    ensures ZValid(z) ==> forall i, j :: 0 <= i < j < |r| ==> r[i].score >= r[j].score
    decreases |z|
  {
    if z == [] then []
    else
      var rest := DescendingIn(z[1..], min, max);
      if min <= z[0].score <= max then
        assert ZValid(z) ==> forall i :: 0 <= i < |rest| ==> rest[i].score >= z[0].score;
        rest + [z[0]]
      else rest
  }

  /** ZREVRANGEBYSCORE key max min WITHSCORES LIMIT offset count. */
  function ZRevRangeByScore(z: ZSet, min: int, max: int, offset: nat, count: nat): (r: ZSet)
    ensures |r| <= count
    ensures forall i :: 0 <= i < |r| ==> min <= r[i].score <= max && r[i] in z
    ensures ZValid(z) ==> forall i, j :: 0 <= i < j < |r| ==> r[i].score >= r[j].score
    ensures r == [] <==> |DescendingIn(z, min, max)| <= offset || count == 0
  {
    var d := DescendingIn(z, min, max);
    if |d| <= offset then []
    else if |d| - offset <= count then d[offset..]
    else d[offset..offset + count]
  }

  /** The value of bit `i` of a bitmap; bits past the end read 0. */
  predicate BitAt(b: seq<bool>, i: nat)
  {
    i < |b| && b[i]
  }

  /** BITFIELD key GET u<width> 0: the first `width` bits read as an unsigned
      number, bit 0 being the most significant. */
  function UnsignedPrefix(b: seq<bool>, width: nat): (n: nat)
    ensures n < Pow2(width)
  {
    if width == 0 then 0
    else 2 * UnsignedPrefix(b, width - 1) + (if BitAt(b, width - 1) then 1 else 0)
  }

  function Pow2(k: nat): (p: nat)
    ensures p >= 1
  {
    if k == 0 then 1 else 2 * Pow2(k - 1)
  }

  /** The bitmap after SETBIT key offset value: padded with zero bits up to the offset. */
  function WithBit(b: seq<bool>, offset: nat, value: bool): (r: seq<bool>)
    ensures |r| == if offset < |b| then |b| else offset + 1
    ensures BitAt(r, offset) == value
    ensures forall i: nat :: i != offset ==> BitAt(r, i) == BitAt(b, i)
  {
    var padded := if offset < |b| then b else b + seq(offset + 1 - |b|, _ => false);
    padded[offset := value]
  }

  class Store {
    var strings: Strings
    var hashes: map<string, HashEntry>
    var bitmaps: map<string, seq<bool>>
    var zsets: map<string, ZSet>

    ghost predicate Valid()
      reads this
    {
      forall k :: k in zsets ==> ZValid(zsets[k]) && zsets[k] != []
    }

    /** A sorted set as ZSCORE, ZCARD and ZRANGE see it: an absent key is the empty set. */
    function ZSetAt(key: string): (z: ZSet)
      reads this
      requires Valid()
      ensures ZValid(z)
    {
      if key in zsets then zsets[key] else []
    }

    constructor ()
      ensures Valid()
      ensures strings == map[] && hashes == map[] && bitmaps == map[] && zsets == map[]
    {
      strings, hashes, bitmaps, zsets := map[], map[], map[], map[];
    }

    /** GET key. */
    method Get(key: string, now: nat) returns (v: Option<Value>)
      ensures v == Read(strings, key, now)
    {
      v := Read(strings, key, now);
    }

    /** SET key value: no expiry. */
    method Set(key: string, value: Value)
      modifies this`strings
      ensures strings == old(strings)[key := Entry(value, None)]
    {
      strings := strings[key := Entry(value, None)];
    }

    /** SET key value PX ttl. */
    method SetEx(key: string, value: Value, ttl: nat, now: nat)
      modifies this`strings
      ensures strings == old(strings)[key := Entry(value, Some(now + ttl))]
    {
      strings := strings[key := Entry(value, Some(now + ttl))];
    }

    /** SET key value NX PX ttl: writes only when the key is absent or expired. */
    method SetIfAbsent(key: string, value: Value, ttl: nat, now: nat) returns (ok: bool)
      modifies this`strings
      ensures ok <==> Read(old(strings), key, now).None?
      ensures strings == if ok then old(strings)[key := Entry(value, Some(now + ttl))] else old(strings)
    {
      ok := Read(strings, key, now).None?;
      if ok {
        strings := strings[key := Entry(value, Some(now + ttl))];
      }
    }

    /** DEL key. */
    method Delete(key: string)
      modifies this`strings
      ensures strings == old(strings) - {key}
    {
      strings := strings - {key};
    }

    /** INCR key: an absent or expired key counts from 0; a key holding anything but
        a number, or a number at the largest long, is an error reply (an exception for
        the caller), and nothing changes. The key keeps its TTL. */
    method Increment(key: string, now: nat) returns (n: Option<Long>)
      modifies this`strings
      ensures match Read(old(strings), key, now)
              case None => n == Some(1) && strings == old(strings)[key := Entry(Num(1), None)]
              case Some(Num(k)) =>
                if (k as int) < MAX_LONG then n == Some(k + 1) && strings == old(strings)[key := Entry(Num(k + 1), old(strings)[key].expireAt)]
                else n == None && strings == old(strings)
              case Some(_) => n == None && strings == old(strings)
    {
      var cur := Read(strings, key, now);
      match cur {
        case None =>
          strings := strings[key := Entry(Num(1), None)];
          n := Some(1);
        case Some(Num(k)) =>
          if (k as int) < MAX_LONG {
            strings := strings[key := Entry(Num(k + 1), strings[key].expireAt)];
            n := Some(k + 1);
          } else {
            n := None;
          }
        case Some(_) =>
          n := None;
      }
    }

    /** HSET key with several fields (HMSET / putAll). */
    method PutAll(key: string, fields: map<string, string>, now: nat)
      modifies this`hashes
      ensures hashes == old(hashes)[key :=
        if key in old(hashes) && Alive(Entry(Text(""), old(hashes)[key].expireAt), now)
        then HashEntry(old(hashes)[key].fields + fields, old(hashes)[key].expireAt)
        else HashEntry(fields, None)]
    {
      if key in hashes && Alive(Entry(Text(""), hashes[key].expireAt), now) {
        hashes := hashes[key := HashEntry(hashes[key].fields + fields, hashes[key].expireAt)];
      } else {
        hashes := hashes[key := HashEntry(fields, None)];
      }
    }

    /** EXPIRE on a hash key: sets its TTL if the key exists. */
    method ExpireHash(key: string, ttl: nat, now: nat) returns (ok: bool)
      modifies this`hashes
      ensures ok <==> key in old(hashes) && Alive(Entry(Text(""), old(hashes)[key].expireAt), now)
      ensures hashes == if ok then old(hashes)[key := HashEntry(old(hashes)[key].fields, Some(now + ttl))] else old(hashes)
    {
      ok := key in hashes && Alive(Entry(Text(""), hashes[key].expireAt), now);
      if ok {
        hashes := hashes[key := HashEntry(hashes[key].fields, Some(now + ttl))];
      }
    }

    /** SETBIT key offset value. */
    method SetBit(key: string, offset: nat, value: bool)
      modifies this`bitmaps
      ensures bitmaps == old(bitmaps)[key := WithBit(if key in old(bitmaps) then old(bitmaps)[key] else [], offset, value)]
    {
      var b := if key in bitmaps then bitmaps[key] else [];
      bitmaps := bitmaps[key := WithBit(b, offset, value)];
    }

    /** BITFIELD key GET u<width> 0; an absent key reads as all zero bits. */
    method BitFieldGetUnsigned(key: string, width: nat) returns (n: nat)
      ensures n == UnsignedPrefix(if key in bitmaps then bitmaps[key] else [], width)
    {
      var b := if key in bitmaps then bitmaps[key] else [];
      n := UnsignedPrefix(b, width);
    }

    /** ZSCORE key member. */
    method ZScore(key: string, member: string) returns (s: Option<int>)
      requires Valid()
      ensures s == ZScoreOf(ZSetAt(key), member)
    {
      s := ZScoreOf(ZSetAt(key), member);
    }

    /** ZADD key score member. */
    method ZAdd(key: string, member: string, score: int)
      requires Valid()
      modifies this`zsets
      ensures Valid()
      ensures zsets == old(zsets)[key := ZAddTo(old(ZSetAt(key)), member, score)]
    {
      var z := ZAddTo(ZSetAt(key), member, score);
      assert member in ZMembers(z);
      zsets := zsets[key := z];
    }

    /** ZREM key member; a set left empty disappears. */
    method ZRem(key: string, member: string)
      requires Valid()
      modifies this`zsets
      ensures Valid()
      ensures ZSetAt(key) == ZRemove(old(ZSetAt(key)), member)
      ensures forall k :: k != key ==> (k in zsets <==> k in old(zsets)) && (k in zsets ==> zsets[k] == old(zsets)[k])
    {
      var z := ZRemove(ZSetAt(key), member);
      if z == [] {
        zsets := zsets - {key};
      } else {
        zsets := zsets[key := z];
      }
    }

    /** ZCARD key. */
    method ZCard(key: string) returns (n: nat)
      requires Valid()
      ensures n == |ZSetAt(key)|
    {
      n := |ZSetAt(key)|;
    }

    /** ZRANGE key 0 stop. */
    method ZRange(key: string, stop: nat) returns (r: ZSet)
      requires Valid()
      ensures r == ZRangeHead(ZSetAt(key), stop)
    {
      r := ZRangeHead(ZSetAt(key), stop);
    }

    /** ZREVRANGEBYSCORE key max min WITHSCORES LIMIT offset count. */
    method ZRevRangeByScoreWithScores(key: string, min: int, max: int, offset: nat, count: nat) returns (r: ZSet)
      requires Valid()
      ensures r == ZRevRangeByScore(ZSetAt(key), min, max, offset, count)
    {
      r := ZRevRangeByScore(ZSetAt(key), min, max, offset, count);
    }
  }
}
