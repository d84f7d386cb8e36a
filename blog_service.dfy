/** BlogServiceImpl: the like toggle over the sorted set "blog:liked:" + blogId and the
    follow feed read from the inbox "feed:" + userId one page at a time. */
module BlogService {
  import opened Wrappers
  import opened Texts
  import opened Redis

  const BLOG_LIKED_KEY: string := "blog:liked:"
  const FEED_KEY: string := "feed:"
  /** ZRANGE key 0 4: the five earliest likers. */
  const TOP_LIKERS: nat := 4
  /** Entries read from the inbox per page. */
  const PAGE_SIZE: nat := 2

  /** A tb_blog row with the fields the service fills in for display: the author's name
      and icon and whether the viewer liked it (None where the field is null). */
  datatype Blog = Blog(id: nat, userId: nat, liked: int, name: Option<string>, icon: Option<string>, isLike: Option<bool>)

  /** A UserDTO: the public part of a tb_user row. */
  datatype Profile = Profile(id: nat, nickName: string, icon: Option<string>)

  /** The Blog likeBlog returns: only isLike and liked are set. */
  datatype Toggle = Toggle(isLike: bool, liked: nat)

  /** ScrollResult: the page of blogs and the cursor of the next call. */
  datatype ScrollResult = ScrollResult(list: seq<Blog>, minTime: int, offset: int)

  /** A sorted set by key as the commands see it: an absent key is the empty set. */
  function SetOf(zsets: map<string, ZSet>, key: string): ZSet
  {
    if key in zsets then zsets[key] else []
  }

  function LikedKey(blogId: nat): string
  {
    BLOG_LIKED_KEY + Decimal(blogId)
  }

  /** The members of a sorted set read out in order. */
  function MemberList(z: ZSet): (r: seq<string>)
    ensures |r| == |z| && forall i :: 0 <= i < |z| ==> r[i] == z[i].member
  {
    seq(|z|, i requires 0 <= i < |z| => z[i].member)
  }

  /** Long.valueOf over every member, in order; None when one of them does not parse. */
  function ParseIds(z: ZSet): (r: Option<seq<nat>>)
    ensures r.None? <==> exists i :: 0 <= i < |z| && ParseDecimal(z[i].member).None?
    ensures r.Some? ==> |r.value| == |z| && forall i :: 0 <= i < |z| ==> ParseDecimal(z[i].member) == Some(r.value[i])
  {
    if z == [] then Some([])
    else
      var init := ParseIds(z[..|z| - 1]);
      var last := ParseDecimal(z[|z| - 1].member);
      if init.None? then
        assert forall i :: 0 <= i < |z| - 1 ==> z[..|z| - 1][i] == z[i];
        None
      else if last.None? then None
      else Some(init.value + [last.value])
  }

  /** The rows of `table` with the given ids, in the order of the ids: the query
      `id IN (ids) ORDER BY FIELD(id, ids)`. Ids without a row are skipped. */
  function InOrder<T>(ids: seq<nat>, table: map<nat, T>): (r: seq<T>)
    ensures |r| <= |ids|
    ensures forall x :: x in r ==> exists i :: i in ids && i in table && table[i] == x
    ensures forall i :: 0 <= i < |ids| && ids[i] in table ==> table[ids[i]] in r
    ensures (forall i :: 0 <= i < |ids| ==> ids[i] in table) ==> |r| == |ids| && forall j :: 0 <= j < |ids| ==> r[j] == table[ids[j]]
  {
    if ids == [] then []
    else
      var rest := InOrder(ids[1..], table);
      assert forall x :: x in rest ==> exists i :: i in ids && i in table && table[i] == x by {
        forall x | x in rest ensures exists i :: i in ids && i in table && table[i] == x {
          var i :| i in ids[1..] && i in table && table[i] == x;
          assert i in ids;
        }
      }
      assert forall i :: 1 <= i < |ids| ==> ids[i] == ids[1..][i - 1];
      if ids[0] in table then [table[ids[0]]] + rest else rest
  }

  /** Read left to right, the query keeps the row of each listed id that has one, in
      turn: one more id appends its row, or nothing when it has none. */
  lemma {:induction false} InOrderSnoc<T>(ids: seq<nat>, x: nat, table: map<nat, T>)
    ensures InOrder(ids + [x], table) == InOrder(ids, table) + (if x in table then [table[x]] else [])
  {
    if ids != [] {
      assert (ids + [x])[1..] == ids[1..] + [x];
      InOrderSnoc(ids[1..], x, table);
    }
  }

  /** The result of likeBlog: the reply, the liked set afterwards and the blog table. */
  datatype Liked = Liked(reply: Toggle, likers: ZSet, blogs: map<nat, Blog>)

  /** likeBlog(id) by user `userId` at `now` (ms) over the blog's liked set: a user not
      in the set likes the blog, one in it takes the like back. The set changes only when
      the `liked` column update found the row. */
  function LikeStep(likers: ZSet, blogs: map<nat, Blog>, id: nat, userId: nat, now: nat): (r: Liked)
    requires ZValid(likers)
    ensures ZValid(r.likers)
    ensures r.reply.isLike <==> Decimal(userId) !in ZMembers(likers)
    ensures r.reply.liked == |r.likers|
    ensures id !in blogs ==> r.likers == likers && r.blogs == blogs
    ensures id in blogs ==>
              && ZMembers(r.likers) == (if r.reply.isLike then ZMembers(likers) + {Decimal(userId)} else ZMembers(likers) - {Decimal(userId)})
              && r.blogs == blogs[id := blogs[id].(liked := blogs[id].liked + if r.reply.isLike then 1 else -1)]
  {
    var member := Decimal(userId);
    if ZScoreOf(likers, member).None? then
      // liked = liked + 1, and ZADD only if the row was updated.
      if id in blogs then
        var z := ZAddTo(likers, member, now);
        Liked(Toggle(true, |z|), z, blogs[id := blogs[id].(liked := blogs[id].liked + 1)])
      else Liked(Toggle(true, |likers|), likers, blogs)
    else
      if id in blogs then
        var z := ZRemove(likers, member);
        Liked(Toggle(false, |z|), z, blogs[id := blogs[id].(liked := blogs[id].liked - 1)])
      else Liked(Toggle(false, |likers|), likers, blogs)
  }

  /** While the liked column counts the set's members, a toggle keeps it counting them. */
  lemma {:induction false} LikeKeepsCount(likers: ZSet, blogs: map<nat, Blog>, id: nat, userId: nat, now: nat)
    requires ZValid(likers) && id in blogs && blogs[id].liked == |likers|
    ensures var r := LikeStep(likers, blogs, id, userId, now);
            id in r.blogs && r.blogs[id].liked == |r.likers| == r.reply.liked
  {
    var member := Decimal(userId);
    if ZScoreOf(likers, member).None? {
      assert ZRemove(likers, member) == likers;
    }
  }

  /** Two toggles by the same user give back the same likers and the same counter; a
      like that is taken back leaves the set exactly as it was. */
  lemma {:induction false} LikeTwiceRestores(likers: ZSet, blogs: map<nat, Blog>, id: nat, userId: nat, t1: nat, t2: nat)
    requires ZValid(likers)
    ensures var r1 := LikeStep(likers, blogs, id, userId, t1);
            var r2 := LikeStep(r1.likers, r1.blogs, id, userId, t2);
            && r2.blogs == blogs
            && ZMembers(r2.likers) == ZMembers(likers)
            && (id in blogs ==> r2.reply.isLike == !r1.reply.isLike)
  {
    var r1 := LikeStep(likers, blogs, id, userId, t1);
    if id in blogs {
      TwoTogglesMembers(likers, r1.likers, Decimal(userId), r1.reply.isLike);
      TwoTogglesCounter(blogs, r1.blogs, id, r1.reply.isLike);
    }
  }

  /** Adding then removing a member, or removing then adding it, gives back the members. */
  lemma TwoTogglesMembers(likers: ZSet, mid: ZSet, member: string, added: bool)
    requires added <==> member !in ZMembers(likers)
    requires ZMembers(mid) == if added then ZMembers(likers) + {member} else ZMembers(likers) - {member}
    ensures (if !added then ZMembers(mid) + {member} else ZMembers(mid) - {member}) == ZMembers(likers)
  {
  }

  /** A counter moved one way and then the other is back where it started. */
  lemma TwoTogglesCounter(blogs: map<nat, Blog>, mid: map<nat, Blog>, id: nat, added: bool)
    requires id in blogs
    requires mid == blogs[id := blogs[id].(liked := blogs[id].liked + if added then 1 else -1)]
    ensures mid[id := mid[id].(liked := mid[id].liked + if !added then 1 else -1)] == blogs
  {
    assert mid[id := mid[id].(liked := mid[id].liked + if !added then 1 else -1)] == blogs[id := blogs[id]];
  }

  /** A like the user had not given, once added, is removed again by the next toggle:
      the set returns to exactly the entries it had. */
  lemma {:induction false} LikeThenUnlikeRestoresSet(likers: ZSet, blogs: map<nat, Blog>, id: nat, userId: nat, t1: nat, t2: nat)
    requires ZValid(likers) && Decimal(userId) !in ZMembers(likers)
    ensures var r1 := LikeStep(likers, blogs, id, userId, t1);
            LikeStep(r1.likers, r1.blogs, id, userId, t2).likers == likers
  {
    var member := Decimal(userId);
    if id in blogs {
      assert ZRemove(likers, member) == likers;
      ZScoreAfterInsert(likers, Scored(member, t1));
      ZRemoveInsert(likers, Scored(member, t1));
    }
  }

  /** isBlogLiked(blog): with no logged-in viewer the blog is left as it is; otherwise
      isLike says whether the viewer is in the blog's liked set. */
  function LikeFlag(zsets: map<string, ZSet>, blog: Blog, viewer: Option<nat>): (b: Blog)
    ensures b.(isLike := blog.isLike) == blog
    ensures viewer.Some? ==> b.isLike == Some(Decimal(viewer.value) in ZMembers(SetOf(zsets, LikedKey(blog.id))))
    ensures viewer.None? ==> b == blog
  {
    match viewer
    case None => blog
    case Some(u) => blog.(isLike := Some(ZScoreOf(SetOf(zsets, LikedKey(blog.id)), Decimal(u)).Some?))
  }

  /** After a toggle that found the blog's row, isBlogLiked for the same user reports
      what the toggle replied. */
  lemma {:induction false} ToggleThenFlag(zsets: map<string, ZSet>, blog: Blog, blogs: map<nat, Blog>, userId: nat, now: nat)
    requires ZValid(SetOf(zsets, LikedKey(blog.id))) && blog.id in blogs
    ensures var r := LikeStep(SetOf(zsets, LikedKey(blog.id)), blogs, blog.id, userId, now);
            LikeFlag(zsets[LikedKey(blog.id) := r.likers], blog, Some(userId)).isLike == Some(r.reply.isLike)
  {
  }

  /** queryBlogUser then isBlogLiked over every blog of a page, in order; None when a
      blog's author has no row (getById returns null and getNickName throws). */
  function Decorated(page: seq<Blog>, users: map<nat, Profile>, zsets: map<string, ZSet>, viewer: Option<nat>): (r: Option<seq<Blog>>)
    ensures r.Some? <==> forall j :: 0 <= j < |page| ==> page[j].userId in users
    ensures r.Some? ==> |r.value| == |page| && forall j :: 0 <= j < |page| ==>
              && r.value[j].id == page[j].id
              && r.value[j].name == Some(users[page[j].userId].nickName)
              && r.value[j].icon == users[page[j].userId].icon
              && (viewer.Some? ==> r.value[j].isLike == Some(Decimal(viewer.value) in ZMembers(SetOf(zsets, LikedKey(page[j].id)))))
  {
    if page == [] then Some([])
    else
      var init := Decorated(page[..|page| - 1], users, zsets, viewer);
      var b := page[|page| - 1];
      if init.None? then
        assert forall j :: 0 <= j < |page| - 1 ==> page[..|page| - 1][j] == page[j];
        None
      else if b.userId !in users then None
      else Some(init.value + [LikeFlag(zsets, b.(name := Some(users[b.userId].nickName), icon := users[b.userId].icon), viewer)])
  }

  /** queryBlogLikes(id) over the blog's liked set: the profiles of the five earliest
      likers in the order they liked, or ok() with no data when nobody has. A member that
      is not a number makes Long.valueOf throw. */
  function LikersStep(likers: ZSet, users: map<nat, Profile>): (r: Outcome<Result<seq<Profile>>>)
    ensures likers == [] <==> r == Returned(Some(Ok(None)))
    ensures r.Returned? ==> r.result.Some? && r.result.value.Ok?
  {
    var top5 := ZRangeHead(likers, TOP_LIKERS);
    if top5 == [] then Returned(Some(Ok(None)))
    else
      match ParseIds(top5)
      case None => Threw
      case Some(ids) => Returned(Some(Ok(Some(InOrder(ids, users)))))
  }

  /** When every liker is the id of a registered user, queryBlogLikes returns the
      profiles of the first min(5, n) likers, earliest like first. */
  lemma {:induction false} LikersInLikeOrder(likers: ZSet, users: map<nat, Profile>)
    requires likers != []
    requires forall i :: 0 <= i < |likers| ==> ParseDecimal(likers[i].member).Some? && ParseDecimal(likers[i].member).value in users
    ensures var r := LikersStep(likers, users);
            && r.Returned? && r.result == Some(Ok(r.result.value.data)) && r.result.value.data.Some?
            && var ps := r.result.value.data.value;
               && |ps| == (if |likers| <= TOP_LIKERS then |likers| else TOP_LIKERS + 1)
               && forall j :: 0 <= j < |ps| ==> ps[j] == users[ParseDecimal(likers[j].member).value]
  {
    var top5 := ZRangeHead(likers, TOP_LIKERS);
    forall i | 0 <= i < |top5|
      ensures ParseDecimal(top5[i].member).Some? && ParseDecimal(top5[i].member).value in users
    {
      assert top5[i] == likers[i];
    }
    var ids := ParseIds(top5).value;
    assert forall j :: 0 <= j < |ids| ==> ids[j] in users;
    var ps := InOrder(ids, users);
    assert LikersStep(likers, users) == Returned(Some(Ok(Some(ps))));
    forall j | 0 <= j < |ps|
      ensures ps[j] == users[ParseDecimal(likers[j].member).value]
    {
      assert top5[j] == likers[j] && ps[j] == users[ids[j]];
    }
  }

  /** The position of the last `c` in `s`, or -1 (lastIndexOf). */
  function LastIndexOf(s: string, c: char): (i: int)
    ensures -1 <= i < |s|
    ensures i == -1 <==> c !in s
    ensures i >= 0 ==> s[i] == c && forall j :: i < j < |s| ==> s[j] != c
  {
    if s == [] then -1
    else if s[|s| - 1] == c then |s| - 1
    else LastIndexOf(s[..|s| - 1], c)
  }

  /** The length of the run of entries at the end of a page sharing the last score. */
  function TrailingRun(page: ZSet): (k: nat)
    ensures k <= |page| && (page != [] ==> 1 <= k)
    ensures forall i :: |page| - k <= i < |page| ==> page[i].score == page[|page| - 1].score
    ensures k < |page| ==> page[|page| - 1 - k].score != page[|page| - 1].score
  {
    if |page| <= 1 then |page|
    else if page[|page| - 2].score == page[|page| - 1].score then 1 + TrailingRun(page[..|page| - 1])
    else 1
  }

  /** The count of entries at minTime that the next call must skip, as the scan leaves
      it: the trailing run, plus one when every score of the page is 0, because the scan
      starts with minTime 0 and counts the first entry twice. */
  function SkipCount(page: ZSet): (r: int)
    requires page != []
    ensures r == TrailingRun(page) || (r == |page| + 1 && forall i :: 0 <= i < |page| ==> page[i].score == 0)
  {
    var k := TrailingRun(page);
    if k == |page| && page[|page| - 1].score == 0 then k + 1 else k
  }

  /** Scanning one more entry updates the skip count as the loop updates `os`: a new
      score restarts the run at 1, the same score extends it by one. */
  lemma {:induction false} SkipCountSnoc(p: ZSet, e: Scored)
    requires p != []
    ensures SkipCount(p + [e]) == if e.score != p[|p| - 1].score then 1 else SkipCount(p) + 1
  {
    var q := p + [e];
    assert q[..|q| - 1] == p;
    if e.score == p[|p| - 1].score && |p| >= 1 {
      assert TrailingRun(q) == 1 + TrailingRun(p);
    }
  }

  /** With a first score that is not 0, the skip count is exactly the trailing run. */
  lemma {:induction false} SkipCountIsRun(page: ZSet)
    requires page != [] && page[0].score != 0
    ensures SkipCount(page) == TrailingRun(page)
  {
    var k := TrailingRun(page);
    if k == |page| {
      assert page[0].score == page[|page| - 1].score;
    }
  }

  /** The next call's offset: the skip count, added to this call's offset when the page
      ends at the same score it started from (max). */
  function NextOffset(page: ZSet, max: int, offset: int): (r: int)
    requires page != []
    ensures max != 0 && (forall i :: 0 <= i < |page| ==> page[i].score == max) ==> r == offset + |page|
    ensures page[0].score != 0 && page[|page| - 1].score != max ==> r == TrailingRun(page)
  {
    if page[|page| - 1].score == max then offset + SkipCount(page) else SkipCount(page)
  }

  /** What scanning entry i of a page adds to the prefix already scanned: its id, its
      member in the joined list, and its effect on the skip count. */
  lemma ScanStep(page: ZSet, i: nat)
    requires i < |page|
    ensures ParseIds(page[..i + 1]) ==
              if ParseIds(page[..i]).Some? && ParseDecimal(page[i].member).Some?
              then Some(ParseIds(page[..i]).value + [ParseDecimal(page[i].member).value])
              else None
    ensures i == 0 ==> Join(",", MemberList(page[..i + 1])) == page[i].member
    ensures i > 0 ==> Join(",", MemberList(page[..i + 1])) == Join(",", MemberList(page[..i])) + "," + page[i].member
    ensures i == 0 ==> SkipCount(page[..i + 1]) == if page[i].score != 0 then 1 else 2
    ensures i > 0 ==> SkipCount(page[..i + 1]) == if page[i].score != page[i - 1].score then 1 else SkipCount(page[..i]) + 1
  {
    var p := page[..i + 1];
    assert p == page[..i] + [page[i]];
    assert p[..i] == page[..i];
    assert MemberList(p) == MemberList(page[..i]) + [page[i].member];
    if i > 0 {
      SkipCountSnoc(page[..i], page[i]);
      JoinSnoc(",", MemberList(page[..i]), page[i].member);
    }
  }

  /** Dropping the trailing comma the scan leaves after the joined ids. */
  lemma DropLastComma(s: string)
    ensures var t := s + ",";
            var at := LastIndexOf(t, ',');
            0 <= at && t[..at] + t[at + 1..] == s
  {
    var t := s + ",";
    assert t[|t| - 1] == ',';
    assert t[..|t| - 1] == s;
  }

  /** The inbox read: at most PAGE_SIZE entries with score in [0, max], highest first,
      after skipping `offset`; a negative offset makes Redis skip past the end. */
  function FeedPage(inbox: ZSet, max: int, offset: int): (page: ZSet)
    ensures |page| <= PAGE_SIZE
    ensures forall i :: 0 <= i < |page| ==> 0 <= page[i].score <= max && page[i] in inbox
  {
    if offset < 0 then [] else ZRevRangeByScore(inbox, 0, max, offset, PAGE_SIZE)
  }

  /** queryBlogOfFollow(max, offset) for user `userId`. */
  function FeedStep(zsets: map<string, ZSet>, blogs: map<nat, Blog>, users: map<nat, Profile>, userId: nat,
                    max: int, offset: int): (r: Outcome<Result<ScrollResult>>)
    ensures FeedPage(SetOf(zsets, FEED_KEY + Decimal(userId)), max, offset) == [] <==> r == Returned(Some(Ok(None)))
    ensures r.Returned? && r.result.Some? && r.result.value.Ok? && r.result.value.data.Some? ==>
              var page := FeedPage(SetOf(zsets, FEED_KEY + Decimal(userId)), max, offset);
              var sr := r.result.value.data.value;
              && page != [] && |sr.list| <= |page|
              && sr.minTime == page[|page| - 1].score
              && sr.offset == NextOffset(page, max, offset)
  {
    var page := FeedPage(SetOf(zsets, FEED_KEY + Decimal(userId)), max, offset);
    if page == [] then Returned(Some(Ok(None)))
    else
      match ParseIds(page)
      case None => Threw
      case Some(ids) =>
        match Decorated(InOrder(ids, blogs), users, zsets, Some(userId))
        case None => Threw
        case Some(list) =>
          Returned(Some(Ok(Some(ScrollResult(list, page[|page| - 1].score, NextOffset(page, max, offset))))))
  }

  /** With the timestamps the feed uses (a positive first score), minTime is the last
      score of the page and the skip count is exactly the number of entries ending the
      page at that score: the entry before them, if any, scored higher. */
  lemma {:induction false} CursorCountsLastRun(zsets: map<string, ZSet>, blogs: map<nat, Blog>, users: map<nat, Profile>,
                                               userId: nat, max: int, offset: int)
    requires ZValid(SetOf(zsets, FEED_KEY + Decimal(userId)))
    requires var page := FeedPage(SetOf(zsets, FEED_KEY + Decimal(userId)), max, offset);
             page != [] && page[0].score != 0
    ensures var page := FeedPage(SetOf(zsets, FEED_KEY + Decimal(userId)), max, offset);
            var r := FeedStep(zsets, blogs, users, userId, max, offset);
            r.Returned? && r.result.Some? && r.result.value.Ok? && r.result.value.data.Some? ==>
              var sr := r.result.value.data.value;
              var k := if sr.minTime == max then sr.offset - offset else sr.offset;
              && 1 <= k <= |page|
              && (forall i :: |page| - k <= i < |page| ==> page[i].score == sr.minTime)
              && (k < |page| ==> page[|page| - 1 - k].score > sr.minTime)
  {
    var page := FeedPage(SetOf(zsets, FEED_KEY + Decimal(userId)), max, offset);
    SkipCountIsRun(page);
    var r := FeedStep(zsets, blogs, users, userId, max, offset);
    if r.Returned? && r.result.Some? && r.result.value.Ok? && r.result.value.data.Some? {
      var sr := r.result.value.data.value;
      assert sr.minTime == page[|page| - 1].score && sr.offset == NextOffset(page, max, offset);
      assert (if sr.minTime == max then sr.offset - offset else sr.offset) == TrailingRun(page);
    }
  }

  /** The blog service over the shared store, the blog table and the user table. */
  class BlogService {
    const redis: Store
    var blogs: map<nat, Blog>
    var users: map<nat, Profile>

    constructor (redis: Store, blogs: map<nat, Blog>, users: map<nat, Profile>)
      ensures this.redis == redis && this.blogs == blogs && this.users == users
    {
      this.redis := redis;
      this.blogs := blogs;
      this.users := users;
    }

    /** likeBlog(id) by the logged-in user `userId` at `now` (ms). */
    method LikeBlog(id: nat, userId: nat, now: nat) returns (reply: Toggle)
      requires redis.Valid()
      modifies redis`zsets, this`blogs
      ensures redis.Valid()
      ensures Liked(reply, redis.ZSetAt(LikedKey(id)), blogs) == LikeStep(old(redis.ZSetAt(LikedKey(id))), old(blogs), id, userId, now)
      ensures forall k :: k != LikedKey(id) ==> redis.ZSetAt(k) == old(redis.ZSetAt(k))
    {
      var key := BLOG_LIKED_KEY + Decimal(id);
      var score := redis.ZScore(key, Decimal(userId));
      var isLike: bool;
      if score.None? {
        isLike := true;
        var isSuccess := id in blogs;
        if isSuccess {
          blogs := blogs[id := blogs[id].(liked := blogs[id].liked + 1)];
          redis.ZAdd(key, Decimal(userId), now);
        }
      } else {
        isLike := false;
        var isSuccess := id in blogs;
        if isSuccess {
          blogs := blogs[id := blogs[id].(liked := blogs[id].liked - 1)];
          redis.ZRem(key, Decimal(userId));
        }
      }
      var size := redis.ZCard(key);
      reply := Toggle(isLike, size);
    }

    /** queryBlogLikes(id). */
    method QueryBlogLikes(id: nat) returns (r: Outcome<Result<seq<Profile>>>)
      requires redis.Valid()
      ensures r == LikersStep(redis.ZSetAt(LikedKey(id)), users)
    {
      var key := BLOG_LIKED_KEY + Decimal(id);
      var top5 := redis.ZRange(key, TOP_LIKERS);
      if top5 == [] {
        return Returned(Some(Ok(None)));
      }
      var ids := ParseIds(top5);
      if ids.None? {
        return Threw;
      }
      r := Returned(Some(Ok(Some(InOrder(ids.value, users)))));
    }

    /** isBlogLiked(blog) for the logged-in user `viewer`, None when nobody is logged in. */
    method IsBlogLiked(blog: Blog, viewer: Option<nat>) returns (b: Blog)
      requires redis.Valid()
      ensures b == LikeFlag(redis.zsets, blog, viewer)
    {
      if viewer.None? {
        return blog;
      }
      var key := BLOG_LIKED_KEY + Decimal(blog.id);
      var score := redis.ZScore(key, Decimal(viewer.value));
      b := blog.(isLike := Some(score.Some?));
    }

    /** The loop of queryBlogOfFollow over the page read from the inbox: the blog ids in
        order, the id string for ORDER BY FIELD, minTime and the skip count. */
    method ScanPage(page: ZSet) returns (ids: Option<seq<nat>>, idsStr: string, minTime: int, os: int)
      requires page != []
      ensures ids == ParseIds(page)
      ensures ids.Some? ==> idsStr == Join(",", MemberList(page)) && minTime == page[|page| - 1].score && os == SkipCount(page)
    {
      var acc: seq<nat> := [];
      var sb: string := "";
      minTime := 0;
      os := 1;
      var i := 0;
      while i < |page|
        invariant 0 <= i <= |page|
        invariant ParseIds(page[..i]) == Some(acc)
        invariant i == 0 ==> sb == "" && minTime == 0 && os == 1
        invariant i > 0 ==> sb == Join(",", MemberList(page[..i])) + "," && minTime == page[i - 1].score && os == SkipCount(page[..i])
      {
        var idStr := page[i].member;
        ScanStep(page, i);
        sb := sb + idStr + ",";
        var n := ParseDecimal(idStr);
        if n.None? {
          // Long.valueOf throws.
          return None, sb, minTime, os;
        }
        acc := acc + [n.value];
        var time := page[i].score;
        if minTime != time {
          minTime := time;
          os := 1;
        } else {
          os := os + 1;
        }
        i := i + 1;
      }
      assert page[..i] == page;
      DropLastComma(Join(",", MemberList(page)));
      var at := LastIndexOf(sb, ',');
      sb := sb[..at] + sb[at + 1..];
      ids, idsStr := Some(acc), sb;
    }

    /** queryBlogOfFollow(max, offset) for the logged-in user `userId`. */
    method QueryBlogOfFollow(userId: nat, max: int, offset: int) returns (r: Outcome<Result<ScrollResult>>)
      requires redis.Valid()
      ensures r == FeedStep(redis.zsets, blogs, users, userId, max, offset)
    {
      var key := FEED_KEY + Decimal(userId);
      var typedTuples: ZSet := [];
      if offset >= 0 {
        typedTuples := redis.ZRevRangeByScoreWithScores(key, 0, max, offset, PAGE_SIZE);
      }
      assert typedTuples == FeedPage(SetOf(redis.zsets, key), max, offset);
      if typedTuples == [] {
        return Returned(Some(Ok(None)));
      }
      var ids, idsStr, minTime, os := ScanPage(typedTuples);
      if ids.None? {
        return Threw;
      }
      os := if minTime == max then offset + os else os;
      assert os == NextOffset(typedTuples, max, offset);
      var blogPage := InOrder(ids.value, blogs);
      var list := DecoratePage(blogPage, userId);
      if list.None? {
        return Threw;
      }
      r := Returned(Some(Ok(Some(ScrollResult(list.value, minTime, os)))));
    }

    /** The loop of queryBlogOfFollow that runs queryBlogUser and isBlogLiked on each
        blog of the page, for the logged-in user `viewer`. */
    method DecoratePage(page: seq<Blog>, viewer: nat) returns (list: Option<seq<Blog>>)
      requires redis.Valid()
      ensures list == Decorated(page, users, redis.zsets, Some(viewer))
    {
      var done: seq<Blog> := [];
      var i := 0;
      while i < |page|
        invariant 0 <= i <= |page|
        invariant Decorated(page[..i], users, redis.zsets, Some(viewer)) == Some(done)
      {
        assert page[..i + 1][..i] == page[..i];
        var blog := page[i];
        if blog.userId !in users {
          // getById returns null and getNickName throws.
          assert forall j :: 0 <= j < i + 1 ==> page[..i + 1][j] == page[j];
          return None;
        }
        blog := blog.(name := Some(users[blog.userId].nickName), icon := users[blog.userId].icon);
        blog := IsBlogLiked(blog, Some(viewer));
        done := done + [blog];
        i := i + 1;
      }
      assert page[..i] == page;
      list := Some(done);
    }
  }
}
