/**
 * The MongoDB collections the routes work on, as one in-memory store, with the
 * documents they hold and the way the routes render documents as JSON. The
 * `users`, `gyms` and `workouts` collections are keyed by the string form of
 * `_id`; `follows` is the set of (follower_id, following_id) pairs; `posts`
 * keeps insertion order, which is the order `delete_one` scans.
 */
module Database {
  import opened Wrappers
  import opened Json
  import opened Seqs

  /** The string form of a document's `_id`. */
  type Id = string

  datatype Stats = Stats(posts: int, followers: int, following: int)

  /** A users document; `gymIds` is absent until a profile update sets `climbing_gym_ids`. */
  datatype User = User(
    username: string, email: string, password: string,
    bio: string, location: string, avatarUrl: string,
    createdAt: Instant, stats: Stats, gymIds: Option<seq<ObjectId>>)

  datatype Post = Post(
    id: Id, imageUrl: string, caption: string, location: string, difficulty: string,
    userId: Id, timestamp: Instant, likes: int, comments: int,
    username: string, avatarUrl: string)

  datatype Gym = Gym(
    name: string, location: string, franchise: Option<string>,
    nameLower: string, addedBy: Id, createdAt: Instant)

  datatype Climb = Climb(routeName: string, grade: string, attempts: int, sendStatus: string, notes: Option<string>)

  /** The fields of a workout a client sends (WorkoutCreate). */
  datatype WorkoutBody = WorkoutBody(
    date: Instant, duration: int, location: string, climbs: seq<Climb>,
    sessionFeeling: Option<string>, achievement: Option<string>, images: Option<seq<string>>)

  datatype Workout = Workout(body: WorkoutBody, userId: Id, createdAt: Instant)

  /** One follows document: (follower_id, following_id). */
  type Edge = (Id, Id)

  class Db {
    var users: map<Id, User>
    var follows: set<Edge>
    var posts: seq<Post>
    var gyms: map<Id, Gym>
    var workouts: map<Id, Workout>

    constructor ()
      ensures users == map[] && follows == {} && posts == [] && gyms == map[] && workouts == map[]
    {
      users, follows, posts, gyms, workouts := map[], {}, [], map[], map[];
    }
  }

  const NotAuthenticated: Response := Response(401, ErrorBody("Not authenticated"))

  // ---------------------------------------------------------------- follow graph

  /** The ids `a` follows. */
  function FollowingIds(follows: set<Edge>, a: Id): set<Id> {
    set e | e in follows && e.0 == a :: e.1
  }

  /** The ids that follow `b`. */
  function FollowerIds(follows: set<Edge>, b: Id): set<Id> {
    set e | e in follows && e.1 == b :: e.0
  }

  /** `$inc: {"stats.following": d}` on user `a`; an `_id` that matches nothing changes nothing. */
  function IncFollowing(users: map<Id, User>, a: Id, d: int): map<Id, User> {
    if a in users then users[a := users[a].(stats := users[a].stats.(following := users[a].stats.following + d))]
    else users
  }

  /** `$inc: {"stats.followers": d}` on user `b`. */
  function IncFollowers(users: map<Id, User>, b: Id, d: int): map<Id, User> {
    if b in users then users[b := users[b].(stats := users[b].stats.(followers := users[b].stats.followers + d))]
    else users
  }

  /** `$inc: {"stats.posts": d}` on user `a`. */
  function IncPosts(users: map<Id, User>, a: Id, d: int): map<Id, User> {
    if a in users then users[a := users[a].(stats := users[a].stats.(posts := users[a].stats.posts + d))]
    else users
  }

  /** Every follows document joins two stored users. */
  ghost predicate EdgesBetweenUsers(users: map<Id, User>, follows: set<Edge>) {
    forall e :: e in follows ==> e.0 in users && e.1 in users
  }

  /** The denormalised counters agree with the follows collection. */
  ghost predicate CountersMatchEdges(users: map<Id, User>, follows: set<Edge>) {
    forall u :: u in users ==>
      && users[u].stats.following == |FollowingIds(follows, u)|
      && users[u].stats.followers == |FollowerIds(follows, u)|
  }

  /** A new edge (a, b) gives a one more followed id and b one more follower, and nobody else anything. */
  lemma AddEdgeDegrees(follows: set<Edge>, a: Id, b: Id, u: Id)
    requires (a, b) !in follows
    ensures |FollowingIds(follows + {(a, b)}, u)| == |FollowingIds(follows, u)| + (if u == a then 1 else 0)
    ensures |FollowerIds(follows + {(a, b)}, u)| == |FollowerIds(follows, u)| + (if u == b then 1 else 0)
  {
    var f := follows + {(a, b)};
    if u == a {
      assert FollowingIds(f, u) == FollowingIds(follows, u) + {b};
      assert b !in FollowingIds(follows, u);
    } else {
      assert FollowingIds(f, u) == FollowingIds(follows, u);
    }
    if u == b {
      assert FollowerIds(f, u) == FollowerIds(follows, u) + {a};
      assert a !in FollowerIds(follows, u);
    } else {
      assert FollowerIds(f, u) == FollowerIds(follows, u);
    }
  }

  /** Removing an edge (a, b) is the exact opposite. */
  lemma RemoveEdgeDegrees(follows: set<Edge>, a: Id, b: Id, u: Id)
    requires (a, b) in follows
    ensures |FollowingIds(follows - {(a, b)}, u)| == |FollowingIds(follows, u)| - (if u == a then 1 else 0)
    ensures |FollowerIds(follows - {(a, b)}, u)| == |FollowerIds(follows, u)| - (if u == b then 1 else 0)
  {
    var f := follows - {(a, b)};
    assert follows == f + {(a, b)};
    AddEdgeDegrees(f, a, b, u);
  }

  /** A follow that inserts the edge and bumps both counters keeps them in step with the edges. */
  lemma FollowKeepsCounters(users: map<Id, User>, follows: set<Edge>, a: Id, b: Id)
    requires CountersMatchEdges(users, follows)
    requires (a, b) !in follows
    ensures CountersMatchEdges(IncFollowers(IncFollowing(users, a, 1), b, 1), follows + {(a, b)})
  {
    forall u | u in users {
      AddEdgeDegrees(follows, a, b, u);
    }
  }

  /** An unfollow that deletes the edge and lowers both counters does too. */
  lemma UnfollowKeepsCounters(users: map<Id, User>, follows: set<Edge>, a: Id, b: Id)
    requires CountersMatchEdges(users, follows)
    requires (a, b) in follows
    ensures CountersMatchEdges(IncFollowers(IncFollowing(users, a, -1), b, -1), follows - {(a, b)})
  {
    forall u | u in users {
      RemoveEdgeDegrees(follows, a, b, u);
    }
  }

  /** Following and then unfollowing the same user restores users and follows exactly. */
  lemma FollowUnfollowRestores(users: map<Id, User>, follows: set<Edge>, a: Id, b: Id)
    requires (a, b) !in follows
    ensures IncFollowers(IncFollowing(IncFollowers(IncFollowing(users, a, 1), b, 1), a, -1), b, -1) == users
    ensures (follows + {(a, b)}) - {(a, b)} == follows
  {
  }

  // ---------------------------------------------------------------- posts

  function PostTime(p: Post): int {
    p.timestamp
  }

  /** `find({"user_id": u})` over posts, in collection order. */
  function PostsBy(posts: seq<Post>, u: Id): (r: seq<Post>)
    ensures forall i :: 0 <= i < |r| ==> r[i].userId == u
    ensures forall p :: p in r <==> p in posts && p.userId == u
  {
    Filter(posts, (p: Post) => p.userId == u)
  }

  // ---------------------------------------------------------------- rendering

  function StatsJson(s: Stats): Value {
    Obj(map["posts" := Int(s.posts), "followers" := Int(s.followers), "following" := Int(s.following)])
  }

  function OptText(o: Option<string>): Value {
    match o
    case None => Null
    case Some(s) => Str(s)
  }

  /** A post as `Post(**post).dict(by_alias=True)` gives it, `_id` already a string. */
  function PostJson(p: Post): Value {
    Obj(map[
      "_id" := Str(p.id), "image_url" := Str(p.imageUrl), "caption" := Str(p.caption),
      "location" := Str(p.location), "difficulty" := Str(p.difficulty), "user_id" := Str(p.userId),
      "timestamp" := Date(p.timestamp), "likes" := Int(p.likes), "comments" := Int(p.comments),
      "username" := Str(p.username), "avatar_url" := Str(p.avatarUrl)])
  }

  /** A gym as `Gym(**gym).dict(by_alias=True)` gives it. */
  function GymJson(id: Id, g: Gym): Value {
    Obj(map[
      "_id" := Str(id), "name" := Str(g.name), "location" := Str(g.location),
      "franchise" := OptText(g.franchise), "name_lower" := Str(g.nameLower),
      "added_by" := Str(g.addedBy), "created_at" := Date(g.createdAt)])
  }

  /** The short gym entry of a profile's `climbing_gyms`. */
  function GymRefJson(id: Id, g: Gym): Value {
    Obj(map["id" := Str(id), "name" := Str(g.name), "location" := Str(g.location)])
  }

  function ClimbJson(c: Climb): Value {
    Obj(map[
      "route_name" := Str(c.routeName), "grade" := Str(c.grade), "attempts" := Int(c.attempts),
      "send_status" := Str(c.sendStatus), "notes" := OptText(c.notes)])
  }

  /** A workout as `Workout(**workout).dict(by_alias=True)` gives it. */
  function WorkoutJson(id: Id, w: Workout): Value {
    var b := w.body;
    Obj(map[
      "_id" := Str(id), "date" := Date(b.date), "duration" := Int(b.duration),
      "location" := Str(b.location),
      "climbs" := Arr(seq(|b.climbs|, i requires 0 <= i < |b.climbs| => ClimbJson(b.climbs[i]))),
      "session_feeling" := OptText(b.sessionFeeling), "achievement" := OptText(b.achievement),
      "images" := (match b.images
                   case None => Null
                   case Some(xs) => Arr(seq(|xs|, i requires 0 <= i < |xs| => Str(xs[i])))),
      "user_id" := Str(w.userId), "created_at" := Date(w.createdAt)])
  }

  /** A user as `UserPublic(**user_data).dict(by_alias=True)` gives it (stored stats). */
  function PublicUserJson(id: Id, u: User, isFollowing: bool, isSelf: bool): Value {
    Obj(map[
      "_id" := Str(id), "username" := Str(u.username), "email" := Str(u.email),
      "bio" := Str(u.bio), "location" := Str(u.location), "avatar_url" := Str(u.avatarUrl),
      "created_at" := Date(u.createdAt), "stats" := StatsJson(u.stats),
      "is_following" := Bool(isFollowing), "is_self" := Bool(isSelf), "climbing_gym_names" := Null])
  }

  /** The stored users document itself, as `find_one` returns it. */
  function UserDoc(id: Id, u: User): Value {
    var base := map[
      "_id" := Oid(ObjectId(id)), "username" := Str(u.username), "email" := Str(u.email),
      "password" := Str(u.password), "bio" := Str(u.bio), "location" := Str(u.location),
      "avatar_url" := Str(u.avatarUrl), "created_at" := Date(u.createdAt), "stats" := StatsJson(u.stats)];
    match u.gymIds
    case None => Obj(base)
    case Some(ids) => Obj(base["climbing_gym_ids" := Arr(seq(|ids|, i requires 0 <= i < |ids| => Oid(ids[i])))])
  }

  /** The members of the stored users document that the replies read back. */
  lemma UserDocFields(id: Id, u: User)
    ensures var d := UserDoc(id, u);
      && d.Obj?
      && {"_id", "username", "email", "password", "bio", "created_at", "stats"} <= d.fields.Keys
      && d.fields["_id"] == Oid(ObjectId(id))
      && d.fields["username"] == Str(u.username)
      && d.fields["email"] == Str(u.email)
      && d.fields["password"] == Str(u.password)
      && d.fields["bio"] == Str(u.bio)
      && d.fields["created_at"] == Date(u.createdAt)
      && d.fields["stats"] == StatsJson(u.stats)
      && ("climbing_gym_ids" in d.fields <==> u.gymIds.Some?)
  {
  }

  // ---------------------------------------------------------------- cursors

  /**
   * A cursor over the documents whose ids are in `s`, in the database's
   * natural order (which nothing here fixes), stopped after `limit` documents.
   */
  method Pick(s: set<Id>, limit: nat) returns (xs: seq<Id>)
    ensures Distinct(xs)
    ensures forall i :: 0 <= i < |xs| ==> xs[i] in s
    ensures |xs| == if |s| <= limit then |s| else limit
    ensures |s| <= limit ==> forall x :: x in s ==> x in xs
  {
    xs := [];
    var remaining := s;
    while |xs| < limit && remaining != {}
      invariant remaining <= s
      invariant Distinct(xs)
      invariant forall i :: 0 <= i < |xs| ==> xs[i] in s && xs[i] !in remaining
      invariant forall x :: x in s ==> x in remaining || x in xs
      invariant |xs| + |remaining| == |s|
      invariant |xs| <= limit
      decreases remaining
    {
      var x :| x in remaining;
      xs := xs + [x];
      remaining := remaining - {x};
    }
  }

  /** The loop that turns each post of a cursor into its JSON form. */
  method RenderPosts(ps: seq<Post>) returns (items: seq<Value>)
    ensures |items| == |ps|
    ensures forall i :: 0 <= i < |ps| ==> items[i] == PostJson(ps[i])
  {
    items := [];
    for i := 0 to |ps|
      invariant |items| == i
      invariant forall j :: 0 <= j < i ==> items[j] == PostJson(ps[j])
    {
      items := items + [PostJson(ps[i])];
    }
  }
}
