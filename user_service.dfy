/** UserServiceImpl: phone-code login and the monthly sign-in bitmap. A code is kept
    for two minutes under "login:code:" + phone; a login that presents it gets a token
    whose hash "login:token:" + token holds the user's public fields. Each user has one
    bitmap per month, "sign:" + userId + ":yyyyMM", with bit d - 1 for day d. */
module UserService {
  import opened Wrappers
  import opened Texts
  import opened Redis
  import opened Clock

  const LOGIN_CODE_KEY: string := "login:code:"
  /** LOGIN_CODE_TTL and LOGIN_USER_TTL, in minutes. */
  const LOGIN_CODE_TTL: nat := 2
  const LOGIN_USER_KEY: string := "login:token:"
  const LOGIN_USER_TTL: nat := 36000
  const USER_SIGN_KEY: string := "sign:"
  const USER_NICK_NAME_PREFIX: string := "user_"

  const BAD_PHONE: string := "手机号格式错误！"
  const BAD_CODE: string := "验证码错误"

  /** A tb_user row; the icon is None where it is null. */
  datatype User = User(id: nat, phone: string, nickName: string, icon: Option<string>)

  /** A six-digit code as RandomUtil.randomNumbers(6) draws it. */
  predicate IsCode(code: string)
  {
    |code| == 6 && forall i :: 0 <= i < 6 ==> IsDigit(code[i])
  }

  /** The users registered with a phone number. */
  function WithPhone(users: seq<User>, phone: string): (r: seq<User>)
    ensures forall u :: u in r <==> u in users && u.phone == phone
  {
    if users == [] then []
    else (if users[0].phone == phone then [users[0]] else []) + WithPhone(users[1..], phone)
  }

  /** The UserDTO hash stored for a token: id, nickName and icon as texts, null
      fields left out. */
  function UserHash(u: User): (fields: map<string, string>)
    ensures "id" in fields && fields["id"] == Decimal(u.id)
    ensures "nickName" in fields && fields["nickName"] == u.nickName
    ensures "icon" in fields <==> u.icon.Some?
  {
    var base := map["id" := Decimal(u.id), "nickName" := u.nickName];
    if u.icon.Some? then base["icon" := u.icon.value] else base
  }

  /** The result of login: the reply (the token on success), the hashes, the user table
      and the table's last auto-increment id. */
  datatype LoggedIn = LoggedIn(reply: Outcome<Result<string>>, hashes: map<string, HashEntry>, users: seq<User>, lastUserId: nat)

  /** login(loginForm): `phoneInvalid` is RegexUtils.isPhoneInvalid(phone), `token` the
      random UUID and `nickSuffix` the ten random characters of a new user's nickname. */
  function LoginStep(strings: Strings, hashes: map<string, HashEntry>, users: seq<User>, lastUserId: nat,
                     phoneInvalid: bool, phone: string, code: Option<string>, token: string, nickSuffix: string,
                     now: nat): (r: LoggedIn)
    ensures r.reply.Returned? && r.reply.result.Some? && r.reply.result.value.Ok? ==> r.reply.result.value.data == Some(token)
    ensures !(r.reply.Returned? && r.reply.result.Some? && r.reply.result.value.Ok?) ==> r.users == users && r.hashes == hashes
    ensures phoneInvalid ==> r == LoggedIn(Returned(Some(Fail(BAD_PHONE))), hashes, users, lastUserId)
    ensures r.users != users ==>
              && (forall u :: u in users ==> u.phone != phone)
              && r.users == users + [User(lastUserId + 1, phone, USER_NICK_NAME_PREFIX + nickSuffix, None)]
              && r.lastUserId == lastUserId + 1
  {
    if phoneInvalid then LoggedIn(Returned(Some(Fail(BAD_PHONE))), hashes, users, lastUserId)
    else
      var cacheCode := Read(strings, LOGIN_CODE_KEY + phone, now);
      if !(cacheCode.Some? && cacheCode.value.Text? && code == Some(cacheCode.value.s)) then
        LoggedIn(Returned(Some(Fail(BAD_CODE))), hashes, users, lastUserId)
      else
        var found := WithPhone(users, phone);
        if |found| > 1 then LoggedIn(Threw, hashes, users, lastUserId)
        else
          var user := if found == [] then User(lastUserId + 1, phone, USER_NICK_NAME_PREFIX + nickSuffix, None) else found[0];
          var users' := if found == [] then users + [user] else users;
          var lastUserId' := if found == [] then lastUserId + 1 else lastUserId;
          var tokenKey := LOGIN_USER_KEY + token;
          var merged := if tokenKey in hashes && Alive(Entry(Text(""), hashes[tokenKey].expireAt), now)
                        then hashes[tokenKey].fields + UserHash(user) else UserHash(user);
          LoggedIn(Returned(Some(Ok(Some(token)))), hashes[tokenKey := HashEntry(merged, Some(now + ToMillis(LOGIN_USER_TTL, Minutes)))],
                users', lastUserId')
  }

  /** A code that is missing, expired or different from the one presented fails the
      login with "验证码错误" and writes neither a user nor a token. */
  lemma {:induction false} WrongCodeRejected(strings: Strings, hashes: map<string, HashEntry>, users: seq<User>, lastUserId: nat,
                                            phone: string, code: Option<string>, token: string, nickSuffix: string, now: nat)
    requires Read(strings, LOGIN_CODE_KEY + phone, now) == None
             || (Read(strings, LOGIN_CODE_KEY + phone, now).value.Text? && code != Some(Read(strings, LOGIN_CODE_KEY + phone, now).value.s))
    ensures LoginStep(strings, hashes, users, lastUserId, false, phone, code, token, nickSuffix, now)
            == LoggedIn(Returned(Some(Fail(BAD_CODE))), hashes, users, lastUserId)
  {
  }

  /** The code sendCode stores lets a login with that code in within two minutes. The
      token's hash then holds the user with that phone, created if there was none, for
      LOGIN_USER_TTL; a registered user is not created again. */
  lemma {:induction false} SentCodeLogsIn(strings: Strings, hashes: map<string, HashEntry>, users: seq<User>, lastUserId: nat,
                                         phone: string, code: string, t0: nat, token: string, nickSuffix: string, now: nat)
    requires forall i, j :: 0 <= i < j < |users| ==> users[i].phone != users[j].phone
    requires t0 <= now < t0 + 60000 * LOGIN_CODE_TTL
    ensures var sent := SendCodeStep(strings, false, phone, code, t0).strings;
            var r := LoginStep(sent, hashes, users, lastUserId, false, phone, Some(code), token, nickSuffix, now);
            && r.reply == Returned(Some(Ok(Some(token))))
            && LOGIN_USER_KEY + token in r.hashes
            && (exists u :: u in r.users && u.phone == phone && r.hashes[LOGIN_USER_KEY + token].fields["id"] == Decimal(u.id))
            && r.hashes[LOGIN_USER_KEY + token].expireAt == Some(now + 60000 * LOGIN_USER_TTL)
            && ((exists u :: u in users && u.phone == phone) ==> r.users == users)
  {
    var sent := SendCodeStep(strings, false, phone, code, t0).strings;
    assert Read(sent, LOGIN_CODE_KEY + phone, now) == Some(Text(code));
    WithPhoneDistinct(users, phone);
    var found := WithPhone(users, phone);
    var r := LoginStep(sent, hashes, users, lastUserId, false, phone, Some(code), token, nickSuffix, now);
    if found == [] {
      var u := User(lastUserId + 1, phone, USER_NICK_NAME_PREFIX + nickSuffix, None);
      assert u in r.users;
    } else {
      assert found[0] in r.users;
    }
  }

  /** With phones unique in the table, at most one user has a given phone. */
  lemma {:induction false} WithPhoneDistinct(users: seq<User>, phone: string)
    requires forall i, j :: 0 <= i < j < |users| ==> users[i].phone != users[j].phone
    ensures |WithPhone(users, phone)| <= 1
  {
    if users != [] {
      WithPhoneDistinct(users[1..], phone);
      if users[0].phone == phone {
        NoneWithPhone(users[1..], phone);
      }
    }
  }

  /** No user is found by a phone nobody in the table has. */
  lemma {:induction false} NoneWithPhone(users: seq<User>, phone: string)
    requires forall i :: 0 <= i < |users| ==> users[i].phone != phone
    ensures WithPhone(users, phone) == []
  {
    if users != [] {
      NoneWithPhone(users[1..], phone);
    }
  }

  /** The result of sendCode: the reply and the string keys afterwards. */
  datatype CodeSent = CodeSent(reply: Result<string>, strings: Strings)

  /** sendCode(phone): an invalid phone fails and stores nothing; otherwise the code is
      stored for LOGIN_CODE_TTL minutes, replacing an earlier one. */
  function SendCodeStep(strings: Strings, phoneInvalid: bool, phone: string, code: string, now: nat): (r: CodeSent)
    ensures phoneInvalid <==> r.reply == Fail(BAD_PHONE)
    ensures phoneInvalid ==> r.strings == strings
    ensures !phoneInvalid ==> forall t :: now <= t < now + 60000 * LOGIN_CODE_TTL ==>
              Read(r.strings, LOGIN_CODE_KEY + phone, t) == Some(Text(code))
    ensures !phoneInvalid ==> Read(r.strings, LOGIN_CODE_KEY + phone, now + 60000 * LOGIN_CODE_TTL).None?
    ensures forall k :: k != LOGIN_CODE_KEY + phone ==> Read(r.strings, k, now) == Read(strings, k, now)
  {
    if phoneInvalid then CodeSent(Fail(BAD_PHONE), strings)
    else CodeSent(Ok(None), strings[LOGIN_CODE_KEY + phone := Entry(Text(code), Some(now + ToMillis(LOGIN_CODE_TTL, Minutes)))])
  }

  /** The sign-in bitmap key of a user for the month of `now`. */
  function SignKey(userId: nat, now: LocalDateTime): string
  {
    USER_SIGN_KEY + Decimal(userId) + FormatMonthSuffix(now)
  }

  /** How many bits end the number in 1 when written in binary. */
  function TrailingOnes(n: nat): (k: nat)
    ensures k == 0 <==> n % 2 == 0
    ensures Pow2(k) <= n + 1
  {
    if n % 2 == 0 then 0 else 1 + TrailingOnes(n / 2)
  }

  /** The days signed in a row up to day `d` of the bitmap: set bits ending at d - 1. */
  function Streak(b: seq<bool>, d: nat): (k: nat)
    ensures k <= d
    ensures k < d ==> !BitAt(b, d - 1 - k)
    ensures forall i :: d - k <= i < d ==> BitAt(b, i)
  {
    if d == 0 || !BitAt(b, d - 1) then 0 else 1 + Streak(b, d - 1)
  }

  /** Reading the first d bits as a number, most significant first, and counting its
      trailing ones gives the streak of days signed up to day d. */
  lemma {:induction false} TrailingOnesIsStreak(b: seq<bool>, d: nat)
    ensures TrailingOnes(UnsignedPrefix(b, d)) == Streak(b, d)
  {
    if d > 0 {
      var n := UnsignedPrefix(b, d);
      assert n == 2 * UnsignedPrefix(b, d - 1) + (if BitAt(b, d - 1) then 1 else 0);
      if BitAt(b, d - 1) {
        assert n / 2 == UnsignedPrefix(b, d - 1);
        TrailingOnesIsStreak(b, d - 1);
      }
    }
  }

  /** Signing in today extends the streak that ended yesterday by one. */
  lemma {:induction false} SignExtendsStreak(b: seq<bool>, day: nat)
    requires day >= 1
    ensures Streak(WithBit(b, day - 1, true), day) == 1 + Streak(b, day - 1)
  {
    var b' := WithBit(b, day - 1, true);
    StreakIgnoresLaterBits(b, b', day - 1);
  }

  /** The streak up to day d depends only on the bits before d. */
  lemma {:induction false} StreakIgnoresLaterBits(b: seq<bool>, c: seq<bool>, d: nat)
    requires forall i: nat :: i < d ==> BitAt(b, i) == BitAt(c, i)
    ensures Streak(b, d) == Streak(c, d)
  {
    if d > 0 {
      StreakIgnoresLaterBits(b, c, d - 1);
    }
  }

  /** The user service over the shared store and the user table. */
  class UserService {
    const redis: Store
    /** RegexUtils.isPhoneInvalid. */
    const phoneInvalid: string -> bool
    var users: seq<User>
    var lastUserId: nat

    constructor (redis: Store, phoneInvalid: string -> bool)
      ensures this.redis == redis && this.phoneInvalid == phoneInvalid && users == [] && lastUserId == 0
    {
      this.redis := redis;
      this.phoneInvalid := phoneInvalid;
      users := [];
      lastUserId := 0;
    }

    /** sendCode(phone); `code` is the code RandomUtil drew. */
    method SendCode(phone: string, code: string, now: nat) returns (reply: Result<string>)
      requires IsCode(code)
      modifies redis`strings
      ensures CodeSent(reply, redis.strings) == SendCodeStep(old(redis.strings), phoneInvalid(phone), phone, code, now)
    {
      if phoneInvalid(phone) {
        return Fail(BAD_PHONE);
      }
      redis.SetEx(LOGIN_CODE_KEY + phone, Text(code), ToMillis(LOGIN_CODE_TTL, Minutes), now);
      reply := Ok(None);
    }

    /** login(loginForm) with the form's phone and code (None when null). */
    method Login(phone: string, code: Option<string>, token: string, nickSuffix: string, now: nat)
      returns (reply: Outcome<Result<string>>)
      modifies redis`hashes, this`users, this`lastUserId
      ensures LoggedIn(reply, redis.hashes, users, lastUserId)
              == LoginStep(redis.strings, old(redis.hashes), old(users), old(lastUserId), phoneInvalid(phone),
                           phone, code, token, nickSuffix, now)
    {
      if phoneInvalid(phone) {
        return Returned(Some(Fail(BAD_PHONE)));
      }
      var cacheCode := redis.Get(LOGIN_CODE_KEY + phone, now);
      if !(cacheCode.Some? && cacheCode.value.Text? && code == Some(cacheCode.value.s)) {
        return Returned(Some(Fail(BAD_CODE)));
      }
      var found := WithPhone(users, phone);
      if |found| > 1 {
        // one() finds more than one row.
        return Threw;
      }
      var user: User;
      if found == [] {
        user := CreateUserWithPhone(phone, nickSuffix);
      } else {
        user := found[0];
      }
      var tokenKey := LOGIN_USER_KEY + token;
      redis.PutAll(tokenKey, UserHash(user), now);
      var ok := redis.ExpireHash(tokenKey, ToMillis(LOGIN_USER_TTL, Minutes), now);
      reply := Returned(Some(Ok(Some(token))));
    }

    /** createUserWithPhone(phone): saves a user named "user_" + the random suffix; the
        table assigns the next id. */
    method CreateUserWithPhone(phone: string, nickSuffix: string) returns (user: User)
      modifies this`users, this`lastUserId
      ensures user == User(old(lastUserId) + 1, phone, USER_NICK_NAME_PREFIX + nickSuffix, None)
      ensures users == old(users) + [user] && lastUserId == old(lastUserId) + 1
    {
      lastUserId := lastUserId + 1;
      user := User(lastUserId, phone, USER_NICK_NAME_PREFIX + nickSuffix, None);
      users := users + [user];
    }

    /** sign() for the logged-in user `userId` at `now`: sets the bit of today. */
    method Sign(userId: nat, now: LocalDateTime) returns (reply: Result<nat>)
      requires ValidTime(now)
      modifies redis`bitmaps
      ensures reply == Ok(None)
      ensures var key := SignKey(userId, now);
              var b := if key in old(redis.bitmaps) then old(redis.bitmaps)[key] else [];
              redis.bitmaps == old(redis.bitmaps)[key := WithBit(b, now.day - 1, true)]
    {
      var keySuffix := FormatMonthSuffix(now);
      var key := USER_SIGN_KEY + Decimal(userId) + keySuffix;
      var dayOfMonth := now.day;
      redis.SetBit(key, dayOfMonth - 1, true);
      reply := Ok(None);
    }

    /** signCount() for the logged-in user `userId` at `now`: the number of days signed
        in a row up to today. */
    method SignCount(userId: nat, now: LocalDateTime) returns (reply: Result<nat>)
      requires ValidTime(now)
      ensures var key := SignKey(userId, now);
              reply == Ok(Some(Streak(if key in redis.bitmaps then redis.bitmaps[key] else [], now.day)))
    {
      var keySuffix := FormatMonthSuffix(now);
      var key := USER_SIGN_KEY + Decimal(userId) + keySuffix;
      var dayOfMonth := now.day;
      var num := redis.BitFieldGetUnsigned(key, dayOfMonth);
      ghost var b := if key in redis.bitmaps then redis.bitmaps[key] else [];
      TrailingOnesIsStreak(b, dayOfMonth);
      if num == 0 {
        return Ok(Some(0));
      }
      var count := 0;
      while true
        invariant count + TrailingOnes(num) == Streak(b, dayOfMonth)
        decreases num
      {
        if num % 2 == 0 {
          break;
        }
        count := count + 1;
        num := num / 2;
      }
      reply := Ok(Some(count));
    }
  }
}
