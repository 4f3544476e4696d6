/**
 * backend/app/routes/posts.py: the caller's own posts, adding a post, the
 * feed of followed users' posts, reading a post and deleting one's own post,
 * with the denormalised `stats.posts` counter kept alongside.
 */
module PostRoutes {
  import opened Wrappers
  import opened Json
  import opened Ids
  import opened Seqs
  import opened Database
  import UserRoutes
  import GymRoutes

  const FeedLimit: nat := 50

  const PostNotFound: Response := Response(404, ErrorBody("Post not found"))
  const PostDeleted: Response := Response(200, MessageBody("Post deleted successfully"))

  /** A validated PostCreate body. */
  datatype PostRequest = PostRequest(imageUrl: string, caption: string, location: string, difficulty: string)

  /** The JSON list of `ps`, in order. */
  function PostList(ps: seq<Post>): seq<Value> {
    seq(|ps|, i requires 0 <= i < |ps| => PostJson(ps[i]))
  }

  // ---------------------------------------------------------------- invariants

  /** Each user's `stats.posts` is the number of posts they wrote. */
  ghost predicate PostCountsMatch(users: map<Id, User>, posts: seq<Post>) {
    forall u :: u in users ==> users[u].stats.posts == |PostsBy(posts, u)|
  }

  /** No two posts share an `_id`. */
  ghost predicate PostIdsUnique(posts: seq<Post>) {
    forall i, j :: 0 <= i < j < |posts| ==> posts[i].id != posts[j].id
  }

  lemma PostsByAppend(posts: seq<Post>, p: Post, u: Id)
    ensures |PostsBy(posts + [p], u)| == |PostsBy(posts, u)| + (if p.userId == u then 1 else 0)
  {
    FilterAppend(posts, [p], (q: Post) => q.userId == u);
    assert Filter([p], (q: Post) => q.userId == u) == (if p.userId == u then [p] else []) by {
      assert [p][1..] == [];
    }
  }

  lemma PostsByRemove(posts: seq<Post>, i: nat, u: Id)
    requires i < |posts|
    ensures |PostsBy(posts[..i] + posts[i + 1..], u)| == |PostsBy(posts, u)| - (if posts[i].userId == u then 1 else 0)
  {
    var f := (q: Post) => q.userId == u;
    assert posts == posts[..i] + [posts[i]] + posts[i + 1..];
    FilterAppend(posts[..i] + [posts[i]], posts[i + 1..], f);
    FilterAppend(posts[..i], [posts[i]], f);
    FilterAppend(posts[..i], posts[i + 1..], f);
    assert Filter([posts[i]], f) == (if posts[i].userId == u then [posts[i]] else []) by {
      assert [posts[i]][1..] == [];
    }
  }

  // ---------------------------------------------------------------- own posts and the feed

  /** get_posts: every post of the caller, newest first. */
  method GetPosts(db: Db, caller: Option<Id>) returns (r: Response)
    ensures !UserRoutes.SignedIn(db, caller) ==> r == NotAuthenticated
    ensures UserRoutes.SignedIn(db, caller) ==>
      r == Response(200, Arr(PostList(SortDesc(PostsBy(db.posts, caller.value), PostTime))))
  {
    if !UserRoutes.SignedIn(db, caller) {
      return NotAuthenticated;
    }
    var mine := SortDesc(PostsBy(db.posts, caller.value), PostTime);
    var items := RenderPosts(mine);
    assert items == PostList(mine);
    r := Response(200, Arr(items));
  }

  /** The caller's list holds exactly the caller's posts, each once per copy, newest first. */
  lemma OwnPostsShape(posts: seq<Post>, me: Id)
    ensures var mine := SortDesc(PostsBy(posts, me), PostTime);
      && SortedDesc(mine, PostTime)
      && (forall p :: p in mine <==> p in posts && p.userId == me)
      && multiset(mine) == multiset(PostsBy(posts, me))
  {
    var mine := SortDesc(PostsBy(posts, me), PostTime);
    forall p ensures p in mine <==> p in posts && p.userId == me {
      assert p in mine <==> p in multiset(mine);
      assert p in PostsBy(posts, me) <==> p in multiset(PostsBy(posts, me));
    }
  }

  /** The authors a feed shows: the users the caller follows, and the caller. */
  function FeedAuthors(follows: set<Edge>, me: Id): set<Id> {
    FollowingIds(follows, me) + {me}
  }

  function Visible(posts: seq<Post>, authors: set<Id>): seq<Post> {
    Filter(posts, (p: Post) => p.userId in authors)
  }

  /** The posts of the feed: the 50 newest visible posts. */
  function Feed(posts: seq<Post>, follows: set<Edge>, me: Id): seq<Post> {
    Take(SortDesc(Visible(posts, FeedAuthors(follows, me)), PostTime), FeedLimit)
  }

  /** get_feed. */
  method GetFeed(db: Db, caller: Option<Id>) returns (r: Response)
    ensures !UserRoutes.SignedIn(db, caller) ==> r == NotAuthenticated
    ensures UserRoutes.SignedIn(db, caller) ==>
      r == Response(200, Arr(PostList(Feed(db.posts, db.follows, caller.value))))
  {
    if !UserRoutes.SignedIn(db, caller) {
      return NotAuthenticated;
    }
    var me := caller.value;
    var authors := FollowingIds(db.follows, me);
    authors := authors + {me};
    var shown := Take(SortDesc(Visible(db.posts, authors), PostTime), FeedLimit);
    var items := RenderPosts(shown);
    assert items == PostList(shown);
    r := Response(200, Arr(items));
  }

  /**
   * The feed shows only posts of the caller and of users the caller follows,
   * newest first, at most 50; when there are more, none left out is newer
   * than one shown, and when there are not, all of them are shown.
   */
  lemma FeedShape(posts: seq<Post>, follows: set<Edge>, me: Id)
    ensures var feed := Feed(posts, follows, me);
      var visible := Visible(posts, FeedAuthors(follows, me));
      && |feed| <= FeedLimit
      && SortedDesc(feed, PostTime)
      && (forall p :: p in feed ==> p in posts && (p.userId == me || (me, p.userId) in follows))
      && (|visible| <= FeedLimit ==> multiset(feed) == multiset(visible))
      && (forall p, q :: p in visible && q in feed && p !in feed ==> q.timestamp >= p.timestamp)
  {
    var visible := Visible(posts, FeedAuthors(follows, me));
    TopNSorted(visible, PostTime, FeedLimit);
    TopNFromInput(visible, PostTime, FeedLimit);
    FeedFromAuthors(posts, follows, me);
    FeedKeepsNewest(posts, follows, me);
  }

  lemma FeedFromAuthors(posts: seq<Post>, follows: set<Edge>, me: Id)
    ensures forall p :: p in Feed(posts, follows, me) ==> p in posts && (p.userId == me || (me, p.userId) in follows)
  {
    var authors := FeedAuthors(follows, me);
    var visible := Visible(posts, authors);
    var feed := Feed(posts, follows, me);
    TopNFromInput(visible, PostTime, FeedLimit);
    forall p | p in feed ensures p in posts && (p.userId == me || (me, p.userId) in follows) {
      assert p in multiset(visible);
      assert p.userId in authors;
      if p.userId != me {
        assert p.userId in FollowingIds(follows, me);
      }
    }
  }

  lemma FeedKeepsNewest(posts: seq<Post>, follows: set<Edge>, me: Id)
    ensures var feed := Feed(posts, follows, me);
      var visible := Visible(posts, FeedAuthors(follows, me));
      forall p, q :: p in visible && q in feed && p !in feed ==> q.timestamp >= p.timestamp
  {
    var visible := Visible(posts, FeedAuthors(follows, me));
    var feed := Feed(posts, follows, me);
    forall p, q | p in visible && q in feed && p !in feed ensures q.timestamp >= p.timestamp {
      TopNDominates(visible, PostTime, FeedLimit, p, q);
    }
  }

  // ---------------------------------------------------------------- add

  /** The post add_post stores. */
  function NewPost(req: PostRequest, id: Id, me: Id, u: User, now: Instant): Post {
    Post(id, req.imageUrl, req.caption, req.location, req.difficulty, me, now, 0, 0, u.username, u.avatarUrl)
  }

  /** add_post. `newId` is the `_id` the insert creates. */
  method AddPost(db: Db, caller: Option<Id>, req: PostRequest, now: Instant, newId: Id) returns (r: Response)
    requires forall i :: 0 <= i < |db.posts| ==> db.posts[i].id != newId
    modifies db`posts, db`users
    ensures !old(UserRoutes.SignedIn(db, caller)) ==>
      r == NotAuthenticated && db.posts == old(db.posts) && db.users == old(db.users)
    ensures old(UserRoutes.SignedIn(db, caller)) ==>
      var me := caller.value;
      var p := NewPost(req, newId, me, old(db.users)[me], now);
      && db.posts == old(db.posts) + [p]
      && db.users == IncPosts(old(db.users), me, 1)
      && r == Response(200, PostJson(p))
    ensures PostIdsUnique(old(db.posts)) ==> PostIdsUnique(db.posts)
    ensures PostCountsMatch(old(db.users), old(db.posts)) ==> PostCountsMatch(db.users, db.posts)
  {
    if !UserRoutes.SignedIn(db, caller) {
      return NotAuthenticated;
    }
    var me := caller.value;
    var p := NewPost(req, newId, me, db.users[me], now);
    forall u | u in db.users {
      PostsByAppend(db.posts, p, u);
    }
    db.posts := db.posts + [p];
    db.users := IncPosts(db.users, me, 1);
    r := Response(200, PostJson(p));
  }

  // ---------------------------------------------------------------- read and delete

  /** find_one / delete_one over posts: the first post, in collection order, with `_id` id (and owner). */
  function FindPost(posts: seq<Post>, id: Id, owner: Option<Id>): (r: Option<nat>)
    ensures r.Some? ==> r.value < |posts| && posts[r.value].id == id
                        && (owner.Some? ==> posts[r.value].userId == owner.value)
    ensures r.Some? ==> forall j :: 0 <= j < r.value ==>
              !(posts[j].id == id && (owner.Some? ==> posts[j].userId == owner.value))
    ensures r.None? <==> forall j :: 0 <= j < |posts| ==>
              !(posts[j].id == id && (owner.Some? ==> posts[j].userId == owner.value))
  {
    if posts == [] then None
    else if posts[0].id == id && (owner.Some? ==> posts[0].userId == owner.value) then Some(0)
    else match FindPost(posts[1..], id, owner)
      case None => None
      case Some(k) => Some(k + 1)
  }

  /** get_post: any stored post, whoever wrote it. */
  method GetPost(db: Db, caller: Option<Id>, postId: string) returns (r: Response)
    ensures !UserRoutes.SignedIn(db, caller) ==> r == NotAuthenticated
    ensures UserRoutes.SignedIn(db, caller) && ParseObjectId(postId).None? ==>
      r == Response(500, ErrorBody(GymRoutes.InvalidIdText(postId)))
    ensures UserRoutes.SignedIn(db, caller) && ParseObjectId(postId).Some? ==>
      var found := FindPost(db.posts, Lower(postId), None);
      && (found.None? ==> r == PostNotFound)
      && (found.Some? ==> r == Response(200, PostJson(db.posts[found.value])))
  {
    if !UserRoutes.SignedIn(db, caller) {
      return NotAuthenticated;
    }
    var oid := ParseObjectId(postId);
    if oid.None? {
      return Response(500, ErrorBody(GymRoutes.InvalidIdText(postId)));
    }
    var found := FindPost(db.posts, oid.value.hex, None);
    if found.None? {
      return PostNotFound;
    }
    r := Response(200, PostJson(db.posts[found.value]));
  }

  /** Removing post `i` of user `me` and decrementing `me`'s counter keeps both post invariants. */
  lemma RemoveKeepsInvariants(users: map<Id, User>, posts: seq<Post>, i: nat, me: Id)
    requires i < |posts| && posts[i].userId == me
    ensures var after := posts[..i] + posts[i + 1..];
      && (PostIdsUnique(posts) ==> PostIdsUnique(after))
      && (PostCountsMatch(users, posts) ==> PostCountsMatch(IncPosts(users, me, -1), after))
  {
    RemoveKeepsIdsUnique(posts, i);
    RemoveKeepsCounts(users, posts, i, me);
  }

  lemma RemoveKeepsIdsUnique(posts: seq<Post>, i: nat)
    requires i < |posts|
    ensures PostIdsUnique(posts) ==> PostIdsUnique(posts[..i] + posts[i + 1..])
  {
    var after := posts[..i] + posts[i + 1..];
    assert forall j :: 0 <= j < |after| ==> after[j] == if j < i then posts[j] else posts[j + 1];
  }

  lemma RemoveKeepsCounts(users: map<Id, User>, posts: seq<Post>, i: nat, me: Id)
    requires i < |posts| && posts[i].userId == me
    ensures PostCountsMatch(users, posts) ==> PostCountsMatch(IncPosts(users, me, -1), posts[..i] + posts[i + 1..])
  {
    if PostCountsMatch(users, posts) {
      var after := posts[..i] + posts[i + 1..];
      var users' := IncPosts(users, me, -1);
      forall u | u in users'
        ensures users'[u].stats.posts == |PostsBy(after, u)|
      {
        PostsByRemove(posts, i, u);
      }
    }
  }

  /** delete_post: only the caller's own post goes, and the caller's counter with it. */
  method DeletePost(db: Db, caller: Option<Id>, postId: string) returns (r: Response)
    modifies db`posts, db`users
    ensures !old(UserRoutes.SignedIn(db, caller)) ==>
      r == NotAuthenticated && db.posts == old(db.posts) && db.users == old(db.users)
    ensures old(UserRoutes.SignedIn(db, caller)) && ParseObjectId(postId).None? ==>
      r == Response(500, ErrorBody(GymRoutes.InvalidIdText(postId)))
      && db.posts == old(db.posts) && db.users == old(db.users)
    ensures old(UserRoutes.SignedIn(db, caller)) && ParseObjectId(postId).Some? ==>
      var me := caller.value;
      var found := FindPost(old(db.posts), Lower(postId), Some(me));
      && (found.None? ==> r == PostNotFound && db.posts == old(db.posts) && db.users == old(db.users))
      && (found.Some? ==>
            && r == PostDeleted
            && db.posts == old(db.posts)[..found.value] + old(db.posts)[found.value + 1..]
            && db.users == IncPosts(old(db.users), me, -1))
    ensures PostIdsUnique(old(db.posts)) ==> PostIdsUnique(db.posts)
    ensures PostCountsMatch(old(db.users), old(db.posts)) ==> PostCountsMatch(db.users, db.posts)
  {
    if !UserRoutes.SignedIn(db, caller) {
      return NotAuthenticated;
    }
    var me := caller.value;
    var oid := ParseObjectId(postId);
    if oid.None? {
      return Response(500, ErrorBody(GymRoutes.InvalidIdText(postId)));
    }
    var found := FindPost(db.posts, oid.value.hex, Some(me));
    if found.None? {
      return PostNotFound;
    }
    var i := found.value;
    RemoveKeepsInvariants(db.users, db.posts, i, me);
    db.posts := db.posts[..i] + db.posts[i + 1..];
    db.users := IncPosts(db.users, me, -1);
    return PostDeleted;
  }
}
