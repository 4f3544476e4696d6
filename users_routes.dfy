/**
 * backend/app/routes/users.py: following and unfollowing with the
 * denormalised `stats` counters, the public profile view, user search and the
 * follower / following lists.
 *
 * Every handler takes `caller`, the user id that `get_current_user` takes
 * from the bearer token (`Middleware.TokenSubject`); the handler itself
 * checks that it names a stored user, as `get_current_user` does.
 */
module UserRoutes {
  import opened Wrappers
  import opened Json
  import opened Ids
  import opened Seqs
  import opened Database

  const SearchLimit: nat := 20
  const ProfilePostLimit: nat := 50

  const CannotFollowSelf: Response := Response(400, ErrorBody("Cannot follow yourself"))
  const InvalidUserId: Response := Response(400, ErrorBody("Invalid user ID format"))
  const MissingUserId: Response := Response(400, ErrorBody("Invalid or missing user ID"))
  const FollowTargetMissing: Response := Response(404, ErrorBody("User to follow not found"))
  const UnfollowTargetMissing: Response := Response(404, ErrorBody("User to unfollow not found"))
  const UserNotFound: Response := Response(404, ErrorBody("User not found"))
  const AlreadyFollowing: Response := Response(200, MessageBody("Already following this user"))
  const Followed: Response := Response(201, MessageBody("User followed successfully"))
  const Unfollowed: Response := Response(200, MessageBody("User unfollowed successfully"))
  const NotFollowing: Response := Response(200, MessageBody("You are not following this user"))

  /** `get_current_user` found a stored user. */
  predicate SignedIn(db: Db, caller: Option<Id>)
    reads db
  {
    caller.Some? && caller.value in db.users
  }

  // ---------------------------------------------------------------- follow / unfollow

  /**
   * follow_user. The path id is compared and stored in its canonical form
   * `str(ObjectId(user_id))` (see the as-written variant below).
   */
  method FollowUser(db: Db, caller: Option<Id>, userId: string) returns (r: Response)
    modifies db`users, db`follows
    ensures !old(SignedIn(db, caller)) ==>
      r == NotAuthenticated && db.users == old(db.users) && db.follows == old(db.follows)
    ensures old(SignedIn(db, caller)) && Lower(userId) == caller.value ==>
      r == CannotFollowSelf && db.users == old(db.users) && db.follows == old(db.follows)
    ensures old(SignedIn(db, caller)) && Lower(userId) != caller.value && ParseObjectId(userId).None? ==>
      r == InvalidUserId && db.users == old(db.users) && db.follows == old(db.follows)
    ensures old(SignedIn(db, caller)) && Lower(userId) != caller.value && ParseObjectId(userId).Some? ==>
      var me, target := caller.value, Lower(userId);
      && (target !in old(db.users) ==>
            r == FollowTargetMissing && db.users == old(db.users) && db.follows == old(db.follows))
      && (target in old(db.users) && (me, target) in old(db.follows) ==>
            r == AlreadyFollowing && db.users == old(db.users) && db.follows == old(db.follows))
      && (target in old(db.users) && (me, target) !in old(db.follows) ==>
            && r == Followed
            && db.follows == old(db.follows) + {(me, target)}
            && db.users == IncFollowers(IncFollowing(old(db.users), me, 1), target, 1))
    ensures CountersMatchEdges(old(db.users), old(db.follows)) ==> CountersMatchEdges(db.users, db.follows)
    ensures EdgesBetweenUsers(old(db.users), old(db.follows)) ==> EdgesBetweenUsers(db.users, db.follows)
  {
    if !SignedIn(db, caller) {
      return NotAuthenticated;
    }
    var me := caller.value;
    if Lower(userId) == me {
      return CannotFollowSelf;
    }
    var oid := ParseObjectId(userId);
    if oid.None? {
      return InvalidUserId;
    }
    var target := oid.value.hex;
    if target !in db.users {
      return FollowTargetMissing;
    }
    if (me, target) in db.follows {
      return AlreadyFollowing;
    }
    if CountersMatchEdges(db.users, db.follows) {
      FollowKeepsCounters(db.users, db.follows, me, target);
    }
    db.follows := db.follows + {(me, target)};
    db.users := IncFollowing(db.users, me, 1);
    db.users := IncFollowers(db.users, target, 1);
    return Followed;
  }

  /** unfollow_user, with the edge keyed by the canonical path id. */
  method UnfollowUser(db: Db, caller: Option<Id>, userId: string) returns (r: Response)
    modifies db`users, db`follows
    ensures !old(SignedIn(db, caller)) ==>
      r == NotAuthenticated && db.users == old(db.users) && db.follows == old(db.follows)
    ensures old(SignedIn(db, caller)) && ParseObjectId(userId).None? ==>
      r == InvalidUserId && db.users == old(db.users) && db.follows == old(db.follows)
    ensures old(SignedIn(db, caller)) && ParseObjectId(userId).Some? ==>
      var me, target := caller.value, Lower(userId);
      && (target !in old(db.users) ==>
            r == UnfollowTargetMissing && db.users == old(db.users) && db.follows == old(db.follows))
      && (target in old(db.users) && (me, target) !in old(db.follows) ==>
            r == NotFollowing && db.users == old(db.users) && db.follows == old(db.follows))
      && (target in old(db.users) && (me, target) in old(db.follows) ==>
            && r == Unfollowed
            && db.follows == old(db.follows) - {(me, target)}
            && db.users == IncFollowers(IncFollowing(old(db.users), me, -1), target, -1))
    ensures CountersMatchEdges(old(db.users), old(db.follows)) ==> CountersMatchEdges(db.users, db.follows)
    ensures EdgesBetweenUsers(old(db.users), old(db.follows)) ==> EdgesBetweenUsers(db.users, db.follows)
  {
    if !SignedIn(db, caller) {
      return NotAuthenticated;
    }
    var me := caller.value;
    var oid := ParseObjectId(userId);
    if oid.None? {
      return InvalidUserId;
    }
    var target := oid.value.hex;
    if target !in db.users {
      return UnfollowTargetMissing;
    }
    if (me, target) !in db.follows {
      return NotFollowing;
    }
    if CountersMatchEdges(db.users, db.follows) {
      UnfollowKeepsCounters(db.users, db.follows, me, target);
    }
    db.follows := db.follows - {(me, target)};
    db.users := IncFollowing(db.users, me, -1);
    db.users := IncFollowers(db.users, target, -1);
    return Unfollowed;
  }

  /** A follow followed by an unfollow of the same id leaves users and follows as they were. */
  method FollowThenUnfollow(db: Db, caller: Option<Id>, userId: string) returns (first: Response, second: Response)
    requires SignedIn(db, caller) && ParseObjectId(userId).Some?
    requires Lower(userId) != caller.value && Lower(userId) in db.users
    requires (caller.value, Lower(userId)) !in db.follows
    modifies db`users, db`follows
    ensures first == Followed && second == Unfollowed
    ensures db.users == old(db.users) && db.follows == old(db.follows)
  {
    first := FollowUser(db, caller, userId);
    second := UnfollowUser(db, caller, userId);
    FollowUnfollowRestores(old(db.users), old(db.follows), caller.value, Lower(userId));
  }

  /** Following twice: the second call answers "Already following" and changes nothing. */
  method FollowTwice(db: Db, caller: Option<Id>, userId: string) returns (first: Response, second: Response)
    requires SignedIn(db, caller) && ParseObjectId(userId).Some?
    requires Lower(userId) != caller.value && Lower(userId) in db.users
    modifies db`users, db`follows
    ensures first == Followed || first == AlreadyFollowing
    ensures second == AlreadyFollowing
    ensures (caller.value, Lower(userId)) in db.follows
    ensures db.follows == old(db.follows) + {(caller.value, Lower(userId))}
    ensures first == Followed ==>
      db.users == IncFollowers(IncFollowing(old(db.users), caller.value, 1), Lower(userId), 1)
    ensures first == AlreadyFollowing ==> db.users == old(db.users)
  {
    first := FollowUser(db, caller, userId);
    ghost var users1, follows1 := db.users, db.follows;
    second := FollowUser(db, caller, userId);
    assert db.follows == follows1;
  }

  /**
   * follow_user exactly as written: the self check compares the raw path
   * segment with the caller's id, and the edge stores the raw segment, while
   * the user lookup and the follower counter go through `ObjectId(user_id)`,
   * which also accepts upper-case hex.
   */
  function FollowAsWritten(users: map<Id, User>, follows: set<Edge>, me: Id, userId: string)
    : (out: (Response, map<Id, User>, set<Edge>))
  {
    if userId == me then (CannotFollowSelf, users, follows)
    else match ParseObjectId(userId)
      case None => (InvalidUserId, users, follows)
      case Some(oid) =>
        if oid.hex !in users then (FollowTargetMissing, users, follows)
        else if (me, userId) in follows then (AlreadyFollowing, users, follows)
        else (Followed, IncFollowers(IncFollowing(users, me, 1), oid.hex, 1), follows + {(me, userId)})
  }

  /** `n` copies of `c`. */
  function Repeat(c: char, n: nat): (r: string)
    ensures |r| == n && forall i :: 0 <= i < n ==> r[i] == c
  {
    if n == 0 then [] else [c] + Repeat(c, n - 1)
  }

  /** The id "aaaaaaaaaaaaaaaaaaaaaaaa" and its upper-case spelling. */
  const OwnId: string := Repeat('a', 24)
  const OwnIdUpper: string := Repeat('A', 24)

  /** `ObjectId` reads the upper-case spelling as the caller's own id. */
  lemma UpperParsesAsOwn()
    ensures OwnIdUpper != OwnId
    ensures ParseObjectId(OwnIdUpper) == Some(ObjectId(OwnId))
  {
    assert OwnIdUpper[0] != OwnId[0];
    assert Lower(OwnIdUpper) == OwnId;
  }

  /**
   * As written, following one's own id under another spelling that
   * `ObjectId` accepts gets 201, and the counters no longer match the edges:
   * the caller's follower counter went up, but no edge points at the
   * caller's canonical id.
   */
  lemma SelfFollowThroughOtherSpelling(u: User, me: Id, spelt: string)
    requires u.stats == Stats(0, 0, 0)
    requires spelt != me && ParseObjectId(spelt) == Some(ObjectId(me))
    ensures
      var users := map[me := u];
      var out := FollowAsWritten(users, {}, me, spelt);
      && CountersMatchEdges(users, {})
      && out.0 == Followed
      && !CountersMatchEdges(out.1, out.2)
  {
    var users := map[me := u];
    assert FollowingIds({}, me) == {} && FollowerIds({}, me) == {};
    var out := FollowAsWritten(users, {}, me, spelt);
    assert out.2 == {(me, spelt)};
    assert FollowerIds(out.2, me) == {};
    assert out.1[me].stats.followers == 1;
  }

  /** The concrete case: user "aaa…a" (24 letters) follows "AAA…A". */
  lemma SelfFollowThroughUpperCase(u: User)
    requires u.stats == Stats(0, 0, 0)
    ensures
      var users := map[OwnId := u];
      var out := FollowAsWritten(users, {}, OwnId, OwnIdUpper);
      && CountersMatchEdges(users, {})
      && out.0 == Followed
      && !CountersMatchEdges(out.1, out.2)
  {
    UpperParsesAsOwn();
    SelfFollowThroughOtherSpelling(u, OwnId, OwnIdUpper);
  }

  // ---------------------------------------------------------------- profile

  /** The posts a profile shows: the user's own, newest first, at most 50. */
  function ProfilePosts(posts: seq<Post>, pid: Id): seq<Post> {
    Take(SortDesc(PostsBy(posts, pid), PostTime), ProfilePostLimit)
  }

  lemma ProfilePostsShape(posts: seq<Post>, pid: Id)
    ensures var shown := ProfilePosts(posts, pid);
      && |shown| <= ProfilePostLimit
      && (forall i :: 0 <= i < |shown| ==> shown[i].userId == pid && shown[i] in posts)
      && SortedDesc(shown, PostTime)
      && (|PostsBy(posts, pid)| <= ProfilePostLimit ==> multiset(shown) == multiset(PostsBy(posts, pid)))
  {
    var mine := PostsBy(posts, pid);
    var shown := ProfilePosts(posts, pid);
    TopNSorted(mine, PostTime, ProfilePostLimit);
    TopNFromInput(mine, PostTime, ProfilePostLimit);
    forall i | 0 <= i < |shown| ensures shown[i].userId == pid && shown[i] in posts {
      assert shown[i] in multiset(mine);
    }
  }

  /** The body get_user_profile returns for profile `pid` seen by `me`. */
  function ProfileView(users: map<Id, User>, follows: set<Edge>, posts: seq<Post>, me: Id, pid: Id): Value
    requires pid in users
  {
    var u := users[pid];
    var shown := ProfilePosts(posts, pid);
    Obj(map[
      "_id" := Str(pid), "username" := Str(u.username), "email" := Str(u.email),
      "bio" := Str(u.bio), "location" := Str(u.location), "avatar_url" := Str(u.avatarUrl),
      "stats" := StatsJson(Stats(|shown|, |FollowerIds(follows, pid)|, |FollowingIds(follows, pid)|)),
      "created_at" := Date(u.createdAt),
      "is_following" := Bool(me != pid && (me, pid) in follows),
      "is_self" := Bool(me == pid),
      "posts" := Arr(seq(|shown|, i requires 0 <= i < |shown| => PostJson(shown[i])))])
  }

  /** Whose profile it is, and whether the viewer follows it. */
  lemma ProfileViewFlags(users: map<Id, User>, follows: set<Edge>, posts: seq<Post>, me: Id, pid: Id)
    requires pid in users
    ensures var v := ProfileView(users, follows, posts, me, pid);
      && v.Obj?
      && v.fields["_id"] == Str(pid)
      && v.fields["is_self"] == Bool(me == pid)
      && v.fields["is_following"] == Bool(me != pid && (me, pid) in follows)
  {
    var v := ProfileView(users, follows, posts, me, pid);
    assert v.fields["_id"] == Str(pid);
    assert v.fields["is_self"] == Bool(me == pid);
  }

  /** The stats of a profile are recounted from the data, not read from the stored counters. */
  lemma ProfileViewStats(users: map<Id, User>, follows: set<Edge>, posts: seq<Post>, me: Id, pid: Id)
    requires pid in users
    ensures var v := ProfileView(users, follows, posts, me, pid);
      && v.Obj?
      && v.fields["stats"] ==
           StatsJson(Stats(|ProfilePosts(posts, pid)|, |FollowerIds(follows, pid)|, |FollowingIds(follows, pid)|))
  {
    assert "stats" != "posts" by { assert "stats"[0] != "posts"[0]; }
    var v := ProfileView(users, follows, posts, me, pid);
    assert v.fields["stats"] ==
      StatsJson(Stats(|ProfilePosts(posts, pid)|, |FollowerIds(follows, pid)|, |FollowingIds(follows, pid)|));
  }

  /** The posts of a profile: only the user's own, newest first, at most 50, and all of them when there are few. */
  lemma ProfileViewPosts(users: map<Id, User>, follows: set<Edge>, posts: seq<Post>, me: Id, pid: Id)
    requires pid in users
    ensures var v := ProfileView(users, follows, posts, me, pid);
      var shown := ProfilePosts(posts, pid);
      && v.Obj? && "posts" in v.fields && v.fields["posts"].Arr?
      && |v.fields["posts"].items| == |shown| <= ProfilePostLimit
      && (forall i :: 0 <= i < |shown| ==>
            v.fields["posts"].items[i] == PostJson(shown[i]) && shown[i].userId == pid && shown[i] in posts)
      && SortedDesc(shown, PostTime)
      && (|PostsBy(posts, pid)| <= ProfilePostLimit ==> multiset(shown) == multiset(PostsBy(posts, pid)))
  {
    ProfilePostsShape(posts, pid);
  }

  /** get_user_profile: flags, recounted stats and the newest posts of one user. */
  method GetUserProfile(db: Db, caller: Option<Id>, userId: string) returns (r: Response)
    ensures !SignedIn(db, caller) ==> r == NotAuthenticated
    ensures SignedIn(db, caller) && ParseObjectId(userId).None? ==> r == InvalidUserId
    ensures SignedIn(db, caller) && ParseObjectId(userId).Some? && Lower(userId) !in db.users ==> r == UserNotFound
    ensures SignedIn(db, caller) && ParseObjectId(userId).Some? && Lower(userId) in db.users ==>
      r == Response(200, ProfileView(db.users, db.follows, db.posts, caller.value, Lower(userId)))
  {
    if !SignedIn(db, caller) {
      return NotAuthenticated;
    }
    var me := caller.value;
    var oid := ParseObjectId(userId);
    if oid.None? {
      return InvalidUserId;
    }
    var pid := oid.value.hex;
    if pid !in db.users {
      return UserNotFound;
    }
    var u := db.users[pid];
    var isFollowing := false;
    if me != pid {
      if (me, pid) in db.follows {
        isFollowing := true;
      }
    }
    var isSelf := me == pid;
    var shown := ProfilePosts(db.posts, pid);
    var items := RenderPosts(shown);
    assert items == seq(|shown|, i requires 0 <= i < |shown| => PostJson(shown[i]));
    var stats := Stats(|items|, |FollowerIds(db.follows, pid)|, |FollowingIds(db.follows, pid)|);
    r := Response(200, Obj(map[
      "_id" := Str(pid), "username" := Str(u.username), "email" := Str(u.email),
      "bio" := Str(u.bio), "location" := Str(u.location), "avatar_url" := Str(u.avatarUrl),
      "stats" := StatsJson(stats), "created_at" := Date(u.createdAt),
      "is_following" := Bool(isFollowing), "is_self" := Bool(isSelf), "posts" := Arr(items)]));
  }

  // ---------------------------------------------------------------- search and lists

  /**
   * The users `search_users` asks the database for: not the caller, and the
   * pattern `q` matches the username or the location (`matches` stands for
   * MongoDB's case-insensitive `$regex`).
   */
  function SearchCandidates(users: map<Id, User>, me: Id, q: string, matches: (string, string) -> bool): set<Id> {
    set u | u in users && u != me && (matches(q, users[u].username) || matches(q, users[u].location))
  }

  /** search_users (the query `q` defaults to ""). */
  method SearchUsers(db: Db, caller: Option<Id>, q: string, matches: (string, string) -> bool)
    returns (r: Response, ghost found: seq<Id>)
    ensures !SignedIn(db, caller) ==> r == NotAuthenticated
    ensures SignedIn(db, caller) && q == "" ==> r == Response(200, Arr([]))
    ensures SignedIn(db, caller) && q != "" ==>
      var me := caller.value;
      var candidates := SearchCandidates(db.users, me, q, matches);
      && r.status == 200 && r.body.Arr?
      && Distinct(found)
      && (forall i :: 0 <= i < |found| ==> found[i] in candidates)
      && |found| == (if |candidates| <= SearchLimit then |candidates| else SearchLimit)
      && |r.body.items| == |found|
      && forall i :: 0 <= i < |found| ==>
           r.body.items[i] ==
             PublicUserJson(found[i], db.users[found[i]], found[i] in FollowingIds(db.follows, me), false)
  {
    found := [];
    if !SignedIn(db, caller) {
      return NotAuthenticated, found;
    }
    if q == "" {
      return Response(200, Arr([])), found;
    }
    var me := caller.value;
    var ids := Pick(SearchCandidates(db.users, me, q, matches), SearchLimit);
    var followingIds := FollowingIds(db.follows, me);
    var results: seq<Value> := [];
    for i := 0 to |ids|
      invariant |results| == i
      invariant forall j :: 0 <= j < i ==>
        results[j] == PublicUserJson(ids[j], db.users[ids[j]], ids[j] in followingIds, false)
    {
      var id := ids[i];
      results := results + [PublicUserJson(id, db.users[id], id in followingIds, false)];
    }
    found := ids;
    r := Response(200, Arr(results));
  }

  /**
   * The body shared by get_followers and get_following: the stored users among
   * `ids`, in natural order, flagged against the caller if there is one.
   */
  method ListUsers(db: Db, caller: Option<Id>, ids: set<Id>) returns (r: Response, ghost shown: seq<Id>)
    ensures r.status == 200 && r.body.Arr?
    ensures Distinct(shown)
    ensures forall x :: x in shown <==> x in ids && x in db.users
    ensures |r.body.items| == |shown|
    ensures forall i :: 0 <= i < |shown| ==>
      var id := shown[i];
      r.body.items[i] == PublicUserJson(id, db.users[id],
        SignedIn(db, caller) && id in FollowingIds(db.follows, caller.value),
        SignedIn(db, caller) && id == caller.value)
  {
    var present := set x | x in ids && x in db.users;
    var order := Pick(present, |present|);
    var current: Option<Id> := if SignedIn(db, caller) then caller else None;
    var followingSet: set<Id> := {};
    if current.Some? {
      followingSet := FollowingIds(db.follows, current.value);
    }
    var results: seq<Value> := [];
    for i := 0 to |order|
      invariant |results| == i
      invariant forall j :: 0 <= j < i ==>
        results[j] == PublicUserJson(order[j], db.users[order[j]], order[j] in followingSet, Some(order[j]) == current)
    {
      var id := order[i];
      results := results + [PublicUserJson(id, db.users[id], id in followingSet, Some(id) == current)];
    }
    shown := order;
    r := Response(200, Arr(results));
  }

  /** The checks both list routes make on the path id before any lookup. */
  function CheckListId(userId: string): (bad: Option<Response>)
    ensures (userId == "" || userId == "undefined") ==> bad == Some(MissingUserId)
    ensures userId != "" && userId != "undefined" ==>
      (bad.None? <==> ParseObjectId(userId).Some?) && (bad.Some? ==> bad == Some(InvalidUserId))
  {
    if userId == "" || userId == "undefined" then Some(MissingUserId)
    else if ParseObjectId(userId).None? then Some(InvalidUserId)
    else None
  }

  /** get_followers: the users with an edge to the path id (compared as given). */
  method GetFollowers(db: Db, caller: Option<Id>, userId: string) returns (r: Response, ghost shown: seq<Id>)
    ensures CheckListId(userId).Some? ==> r == CheckListId(userId).value
    ensures CheckListId(userId).None? ==>
      && r.status == 200 && r.body.Arr? && Distinct(shown)
      && (forall x :: x in shown <==> x in FollowerIds(db.follows, userId) && x in db.users)
      && |r.body.items| == |shown|
      && (forall i :: 0 <= i < |shown| ==>
            shown[i] in db.users
            && r.body.items[i] == PublicUserJson(shown[i], db.users[shown[i]],
                 SignedIn(db, caller) && shown[i] in FollowingIds(db.follows, caller.value),
                 SignedIn(db, caller) && shown[i] == caller.value))
  {
    shown := [];
    var bad := CheckListId(userId);
    if bad.Some? {
      return bad.value, shown;
    }
    var followerIds := FollowerIds(db.follows, userId);
    if followerIds == {} {
      return Response(200, Arr([])), shown;
    }
    r, shown := ListUsers(db, caller, followerIds);
  }

  /** get_following: the users the path id has an edge to. */
  method GetFollowing(db: Db, caller: Option<Id>, userId: string) returns (r: Response, ghost shown: seq<Id>)
    ensures CheckListId(userId).Some? ==> r == CheckListId(userId).value
    ensures CheckListId(userId).None? ==>
      && r.status == 200 && r.body.Arr? && Distinct(shown)
      && (forall x :: x in shown <==> x in FollowingIds(db.follows, userId) && x in db.users)
      && |r.body.items| == |shown|
      && (forall i :: 0 <= i < |shown| ==>
            shown[i] in db.users
            && r.body.items[i] == PublicUserJson(shown[i], db.users[shown[i]],
                 SignedIn(db, caller) && shown[i] in FollowingIds(db.follows, caller.value),
                 SignedIn(db, caller) && shown[i] == caller.value))
  {
    shown := [];
    var bad := CheckListId(userId);
    if bad.Some? {
      return bad.value, shown;
    }
    var followingIds := FollowingIds(db.follows, userId);
    if followingIds == {} {
      return Response(200, Arr([])), shown;
    }
    r, shown := ListUsers(db, caller, followingIds);
  }
}
