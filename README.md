# rockclimbr backend, modelled in Dafny

This project models the request handlers of the rockclimbr Flask/MongoDB backend (`backend/app`):
- user search, following and profiles (`routes/users.py`);
- registration, login and the signed-in user's own profile (`routes/auth.py`);
- the gym catalogue (`routes/gyms.py`);
- posts and the feed (`routes/posts.py`);
- workout logs (`routes/workouts.py`);
- the bearer-token gate (`middleware/auth_middleware.py`).

The mobile client that calls this API (its HTTP wrapper and session state) is not part of this model.

The MongoDB database is one object, `Database.Db`. Its fields are:
- `users`, `gyms` and `workouts`: maps keyed by the string form of `_id`;
- `follows`: a set of (follower_id, following_id) pairs;
- `posts`: a sequence in insertion order.

Each route is a method that returns a `Json.Response`, a status code plus a JSON body. Routes that write the database name the fields they change in `modifies`. Each method states in `ensures` what every branch of the handler returns and leaves behind. That covers the error paths with their exact status codes and messages.

A route's `caller` parameter is the user id `get_current_user` reads from the token (`Middleware.TokenSubject`). The route checks that the id names a stored user and answers 401 "Not authenticated" when it does not, as the source does. `Middleware.WithLogin` is the `@login_required` decorator wrapped around a handler.

The invariants the routes keep are stated separately:
- the `stats` counters agree with the follows collection (`Database.CountersMatchEdges`) and with the posts collection (`PostRoutes.PostCountsMatch`);
- emails and usernames are unique;
- gym `name_lower` keys match the gym names and are unique;
- post ids are unique;
- follows only join stored users.

Dafny's verifier proves the contracts and lemmas; nothing here is executed.

Modules, one per file:
- `Wrappers`: `Option`.
- `Json`: JSON values with MongoDB's ObjectId and datetime, Python truthiness, and `json_serialize_mongodb`.
- `Ids`: bson's `ObjectId(str)` parsing, ASCII `str.lower`, and literal case-insensitive substring search.
- `Seqs`: filter, descending sort, `limit` and their lemmas.
- `Middleware`: the bearer-token gate, token creation and the password check.
- `Database`: the documents, the store, counter arithmetic, and the renderers.
- `UserRoutes`, `AuthRoutes`, `GymRoutes`, `PostRoutes` and `WorkoutRoutes`: one module per route file.

## Model

| member | source | states |
|---|---|---|
| Json.Serialize | backend/app/routes/auth.py:14-25 | The result holds no ObjectId or datetime. ObjectIds become their hex string and datetimes `iso(t)`. Other scalars are unchanged. Dicts keep their keys and lists their lengths. |
| Json.SerializeEntries | backend/app/routes/auth.py:16-19 | Each dict value and each list item is converted on its own. |
| Json.SerializePlain | backend/app/routes/auth.py:14-25 | A value that is already JSON-safe is returned unchanged; proved by induction on the value. |
| Json.SerializeIdempotent | backend/app/routes/auth.py:14-25 | Converting twice gives the same result as converting once. |
| Ids.Lower | backend/app/routes/gyms.py:53 | Same length as the input, each character lower-cased on its own. |
| Ids.LowerIdempotent | backend/app/routes/gyms.py:124 | Lower-casing a lower-cased name changes nothing. |
| Ids.ParseObjectId | backend/app/routes/users.py:97 | An id parses exactly when it is 24 hex digits in either case. The parsed id is the lower-case canonical form. |
| Ids.ParsePrinted | backend/app/routes/users.py:189 | Parsing the printed form of an ObjectId gives that ObjectId back. |
| Seqs.Filter | backend/app/routes/posts.py:24 | Keeps exactly the elements that satisfy the predicate, never more copies than the input has. |
| Seqs.FilterAppend | backend/app/routes/posts.py:24 | Filtering a concatenation is the concatenation of the filtered parts. |
| Seqs.SortDesc | backend/app/routes/posts.py:24 | The result is sorted by descending key and is a permutation of the input. |
| Seqs.InsertSorted | backend/app/routes/posts.py:24 | Inserting one element into a list sorted newest first keeps it sorted and adds exactly that element. |
| Seqs.Take | backend/app/routes/posts.py:102 | `limit(n)`: a prefix of length min(n, input length). |
| Seqs.TopNSorted | backend/app/routes/posts.py:99-103 | Sorting and then limiting leaves a sorted list. |
| Seqs.TopNFromInput | backend/app/routes/posts.py:99-103 | The kept elements come from the input, and there are as many as the input has, up to n. |
| Seqs.TopNDominates | backend/app/routes/posts.py:99-103 | No element left out by the limit has a greater key than any element kept. |
| Seqs.SameMembers | backend/app/routes/workouts.py:24 | Sorting keeps exactly the same members. |
| Middleware.VerifyPassword | backend/app/middleware/auth_middleware.py:23-31 | An empty stored hash never matches. Otherwise the hash library's check decides. |
| Middleware.CreateAccessToken | backend/app/middleware/auth_middleware.py:34-40 | The claims are the given data plus `exp`, which is the issue time plus 1440 minutes. |
| Middleware.Split | backend/app/middleware/auth_middleware.py:68 | `str.split(' ')`: at least one part, no part holds a space, the parts joined by single spaces give the input back, and a space in the input means at least two parts. |
| Middleware.BearerToken | backend/app/middleware/auth_middleware.py:64-68 | There is a token exactly when the header starts with "Bearer ". The token is the longest space-free text after the prefix, which is the second space-separated segment. |
| Middleware.BearerTokenOf | backend/app/middleware/auth_middleware.py:100 | "Bearer " followed by a space-free token yields exactly that token. |
| Middleware.LoginRequired | backend/app/middleware/auth_middleware.py:91-105 | No bearer header gives 401 "No authorization token provided". A token that fails verification or yields an empty payload gives 401 "Invalid or expired token". Otherwise the request proceeds. |
| Middleware.WithLogin | backend/app/middleware/auth_middleware.py:93-105 | The wrapped handler runs with its own arguments when the gate proceeds. Otherwise the reply is the gate's 401. |
| Middleware.TokenSubject | backend/app/middleware/auth_middleware.py:60-80 | A user id exists exactly when the header, the payload and a string `sub` that `ObjectId()` accepts are all present. The id is the lower-cased `sub`, so it is canonical, and having one implies the gate proceeds. |
| Middleware.GateDoesNotCheckUser | backend/app/middleware/auth_middleware.py:101-105 | A valid token without `sub` passes the gate, yet names no user. |
| Database.AddEdgeDegrees | backend/app/routes/users.py:115-119 | A new edge (a, b) raises a's out-degree and b's in-degree by one and nobody else's. |
| Database.RemoveEdgeDegrees | backend/app/routes/users.py:150-158 | Removing an edge lowers exactly those two degrees by one. |
| Database.FollowKeepsCounters | backend/app/routes/users.py:109-119 | A follow keeps every user's counters equal to their degrees. |
| Database.UnfollowKeepsCounters | backend/app/routes/users.py:150-158 | An unfollow does too. |
| Database.FollowUnfollowRestores | backend/app/routes/users.py:115-158 | The increments of a follow and the decrements of an unfollow cancel out, and so do the edge insert and remove. |
| Database.PostsBy | backend/app/routes/posts.py:24 | Exactly the posts with that `user_id`. |
| Database.UserDocFields | backend/app/routes/auth.py:144-152 | The stored user document has the members the routes read back. `climbing_gym_ids` is present exactly when a profile update has set it. |
| Database.Pick | backend/app/routes/users.py:37 | An unordered cursor with `limit`: distinct ids drawn from the matching set, as many as it has up to the limit, and all of them when they fit. |
| Database.RenderPosts | backend/app/routes/posts.py:27-29 | The loop renders each post in order. |
| UserRoutes.FollowUser | backend/app/routes/users.py:78-124 | Each branch in order: 401, 400 own id, 400 invalid id, 404, 200 already following with nothing changed. Otherwise exactly the edge (me, target) is added, the two counters are raised, and the reply is 201. The counters stay consistent with the edges, and follows still join only stored users. |
| UserRoutes.UnfollowUser | backend/app/routes/users.py:130-165 | Each branch: 401, 400, 404. An existing edge is removed with both counters lowered and reply 200. Without an edge, 200 "You are not following this user" with nothing changed. The counters stay consistent, and follows still join only stored users. |
| UserRoutes.FollowThenUnfollow | backend/app/routes/users.py:109-158 | Following and then unfollowing a user gives 201, then 200, and leaves users and follows exactly as they were. |
| UserRoutes.FollowTwice | backend/app/routes/users.py:101-107 | The second follow of the same user answers "Already following this user", and only the one edge is added. The counters change only if the first call added the edge. |
| UserRoutes.UpperParsesAsOwn | backend/app/routes/users.py:97 | `ObjectId()` reads the upper-case spelling as the caller's own id, though the two strings differ. |
| UserRoutes.SelfFollowThroughOtherSpelling | backend/app/routes/users.py:93-119 | As written, following one's own id under any other spelling that `ObjectId()` accepts gets 201. The caller's follower counter no longer matches the follows collection. |
| UserRoutes.SelfFollowThroughUpperCase | backend/app/routes/users.py:93-119 | As written, a user who follows their own id in upper case gets 201, and the counters stop matching the edges. |
| UserRoutes.ProfilePostsShape | backend/app/routes/users.py:205 | The profile shows at most 50 posts, all by that user and newest first. When the user has 50 or fewer, all of them are shown. |
| UserRoutes.ProfileViewFlags | backend/app/routes/users.py:192-202 | `is_self` holds exactly when the viewer is the profile user. `is_following` holds exactly when the viewer is someone else with an edge to the profile. |
| UserRoutes.ProfileViewStats | backend/app/routes/users.py:211-238 | The shown stats are recounted: posts is the number of posts returned, followers and following are counted from the follows collection. |
| UserRoutes.ProfileViewPosts | backend/app/routes/users.py:204-242 | The `posts` list renders the selected posts in order. |
| UserRoutes.GetUserProfile | backend/app/routes/users.py:171-249 | 401, 400 invalid id, 404 "User not found", or 200 with the profile view described by the three lemmas above. |
| UserRoutes.SearchUsers | backend/app/routes/users.py:12-71 | An empty query gives []. Otherwise up to 20 distinct users other than the caller, matched on username or location. `is_following` holds exactly when the caller follows the result. |
| UserRoutes.ListUsers | backend/app/routes/users.py:282-316 | The stored users among the ids, each once. `is_following` and `is_self` are computed against the caller when there is one, and are false otherwise. |
| UserRoutes.CheckListId | backend/app/routes/users.py:264-270 | "" or "undefined" gives 400 "Invalid or missing user ID". Otherwise an id `ObjectId()` rejects gives 400 "Invalid user ID format". |
| UserRoutes.GetFollowers | backend/app/routes/users.py:257-316 | After the id checks, the followers of the path id, compared as given, that are stored users. No 401: the caller is optional. |
| UserRoutes.GetFollowing | backend/app/routes/users.py:321-380 | The same for the users the path id follows. |
| AuthRoutes.FirstMissingField | backend/app/routes/auth.py:38-41 | None exactly when username, email and password are all present. Otherwise the first one missing, in that order. |
| AuthRoutes.Register | backend/app/routes/auth.py:27-87 | 400 "No data provided" for a missing or empty body, then the first missing field in the order username, email, password. A taken email is refused before a taken username is checked. Otherwise the new user is stored with zero stats and "" defaults, and the reply carries a token for the new id. Unique emails and usernames, and counters consistent with the edges, are preserved. |
| AuthRoutes.NewUserHasNoEdges | backend/app/routes/auth.py:59-67 | A fresh user with zero counters keeps the counters consistent with the follows. |
| AuthRoutes.Login | backend/app/routes/auth.py:93-130 | The KeyError and TypeError replies for a missing field or body. An unknown email and a wrong password get the same 401 "Invalid email or password". Otherwise a token for the account with that email, and the account without the hash. |
| AuthRoutes.EmailFindsOwner | backend/app/routes/auth.py:102 | With unique emails, the lookup by email finds the one account that has it. |
| AuthRoutes.RegisterThenLogin | backend/app/routes/auth.py:51-112 | After a registration, logging in with the same email and password succeeds for the new id, provided the hash library checks its own hashes. |
| AuthRoutes.ClimbingGyms | backend/app/routes/auth.py:168-183 | `{id, name, location}` for exactly the stored gyms among the user's gym ids, each once. |
| AuthRoutes.OwnProfileViewFields | backend/app/routes/auth.py:149-192 | `/me` has the stored document's keys without `password` and with `climbing_gyms`. `_id` and `created_at` are converted, and the stats are the recounted ones. |
| AuthRoutes.SerializedUserDoc | backend/app/routes/auth.py:14-25 | The converted user document keeps its keys. Its id becomes the hex string and its creation date the ISO text. Username, bio and stats are unchanged. |
| AuthRoutes.GetCurrentUserProfile | backend/app/routes/auth.py:136-194 | 401, or 200 with the stats recounted from posts and follows, plus the gyms of a non-empty `climbing_gym_ids`. |
| AuthRoutes.KeptIdsMembers | backend/app/routes/auth.py:229-236 | The cleaned list holds exactly the entries `ObjectId()` accepts, all in canonical form. Empty and unconvertible entries are dropped. |
| AuthRoutes.KeptIdsAppend | backend/app/routes/auth.py:229-236 | Cleaning keeps the list order: cleaning a + b gives the cleaned a followed by the cleaned b. |
| AuthRoutes.CleanGymIds | backend/app/routes/auth.py:229-238 | The loop computes exactly the cleaned list. |
| AuthRoutes.ApplyProfileKeepsAccount | backend/app/routes/auth.py:218-219 | Only username, bio, location and avatar_url are copied from the request, plus the gym ids when sent. Email, hash, stats and creation date never change. With nothing allowed in the request, the user is unchanged. |
| AuthRoutes.ApplyProfileKeepsInvariants | backend/app/routes/auth.py:244-256 | An update that passed the username check keeps emails and usernames unique and the counters consistent. |
| AuthRoutes.UpdatedProfileViewKeys | backend/app/routes/auth.py:268-291 | The profile-update reply has the stored keys without `password` and `climbing_gym_ids`, and with `climbing_gyms`. |
| AuthRoutes.UpdatedProfileViewFields | backend/app/routes/auth.py:268-293 | The reply shows the stored id, username, bio and stats. |
| AuthRoutes.UpdateUserProfile | backend/app/routes/auth.py:200-293 | 401, 400 "No data provided", 400 "climbing_gym_ids must be a list", 400 for a username another user has. Re-submitting one's own username is allowed. Otherwise only the caller's document is replaced by the applied update. Uniqueness and counter consistency are preserved. |
| AuthRoutes.UpdatePassword | backend/app/routes/auth.py:312-337 | 401, the "Invalid request data" KeyError and TypeError replies, and 401 "Current password is incorrect" with the hash unchanged. Otherwise the new hash is stored and then checks against the new password. |
| GymRoutes.SearchGyms | backend/app/routes/gyms.py:12-34 | An empty query gives []. Otherwise up to 10 distinct gyms whose name contains the query regardless of case, and all of them when there are 10 or fewer. |
| GymRoutes.AddGym | backend/app/routes/gyms.py:40-76 | 401. A gym stored under the same lower-cased name is returned with 200 and nothing is inserted. Otherwise the gym is stored with `name_lower` = lower(name) and `added_by` = caller, and the reply is 201. Both name-key invariants are preserved. |
| GymRoutes.AddGymTwice | backend/app/routes/gyms.py:53-59 | A second add of the same name, in any case, stores nothing and returns the first add's gym. |
| GymRoutes.GetGym | backend/app/routes/gyms.py:82-99 | 500 with bson's InvalidId text, 404 "Gym not found", or 200 with the gym. No user check. |
| GymRoutes.Renamed | backend/app/routes/gyms.py:122-124 | An update keeps the owner and creation date and recomputes `name_lower` from the new name. |
| GymRoutes.UpdateGym | backend/app/routes/gyms.py:101-140 | 401, 400 invalid id, 404, 403 for a non-owner with nothing changed; otherwise only that gym is replaced by the renamed one. No gym changes owner. |
| GymRoutes.RenameCanCollide | backend/app/routes/gyms.py:122-131 | Renaming a gym to another gym's name, in any case, breaks `name_lower` uniqueness: update_gym does not check it. |
| GymRoutes.DeleteGym | backend/app/routes/gyms.py:142-172 | 401, 500 invalid id, 404, 403 for a non-owner with nothing changed; otherwise exactly that gym is removed. |
| PostRoutes.PostsByAppend | backend/app/routes/posts.py:63-69 | Appending a post adds one to its author's post count and nothing to anyone else's. |
| PostRoutes.PostsByRemove | backend/app/routes/posts.py:154-166 | Removing a post subtracts one from its author's post count only. |
| PostRoutes.GetPosts | backend/app/routes/posts.py:11-31 | 401, or 200 with the caller's posts sorted newest first. |
| PostRoutes.OwnPostsShape | backend/app/routes/posts.py:23-24 | That list holds exactly the caller's posts, newest first. |
| PostRoutes.GetFeed | backend/app/routes/posts.py:81-112 | 401, or 200 with the 50 newest posts by the caller or by users the caller follows. |
| PostRoutes.FeedShape | backend/app/routes/posts.py:94-103 | Feed posts are by the caller or followed users, newest first, at most 50. No left-out visible post is newer than a shown one, and all are shown when there are 50 or fewer. |
| PostRoutes.FeedFromAuthors | backend/app/routes/posts.py:94-98 | Every feed post is a stored post by the caller or by a user the caller follows. |
| PostRoutes.FeedKeepsNewest | backend/app/routes/posts.py:99-103 | No visible post left out of the feed is newer than a post in it. |
| PostRoutes.AddPost | backend/app/routes/posts.py:37-75 | 401. Otherwise exactly one post is appended: owner is the caller, likes and comments are 0, and it carries the caller's username and avatar. The caller's `stats.posts` goes up by 1. Both post invariants are preserved. |
| PostRoutes.FindPost | backend/app/routes/posts.py:154-157 | The first post in collection order with that id, and owner when one is given, or none when there is no such post. |
| PostRoutes.GetPost | backend/app/routes/posts.py:118-140 | 401, 500 invalid id, 404 "Post not found", or 200 with the post, whoever wrote it. |
| PostRoutes.RemoveKeepsInvariants | backend/app/routes/posts.py:154-166 | Removing one of the caller's posts and lowering the caller's counter keeps post ids unique and post counters exact. |
| PostRoutes.RemoveKeepsIdsUnique | backend/app/routes/posts.py:154-160 | Removing one post keeps the remaining post ids distinct. |
| PostRoutes.RemoveKeepsCounts | backend/app/routes/posts.py:154-166 | Removing one of the caller's posts and lowering only the caller's counter keeps every post counter exact. |
| PostRoutes.DeletePost | backend/app/routes/posts.py:142-168 | 401, 500 invalid id. A missing post or another user's post gives 404 with nothing changed. Otherwise exactly that one post is removed and the caller's `stats.posts` goes down by 1. |
| WorkoutRoutes.RenderWorkouts | backend/app/routes/workouts.py:27-29 | The loop renders each workout in order. |
| WorkoutRoutes.GetWorkouts | backend/app/routes/workouts.py:11-31 | 401, or each of the caller's workouts once, sorted by session date, latest first. |
| WorkoutRoutes.AddWorkout | backend/app/routes/workouts.py:37-63 | 401. Otherwise the body is stored with `user_id` taken from the caller, never from the request. |
| WorkoutRoutes.GetWorkout | backend/app/routes/workouts.py:69-94 | 401, 500 invalid id. A missing workout or another user's workout gives 404. Otherwise 200. |
| WorkoutRoutes.UpdateWorkout | backend/app/routes/workouts.py:96-134 | 401, 400 invalid id, 404 for a missing or non-owned workout with nothing changed. Otherwise only the body fields change; `user_id` and `created_at` stay the same. Other users' workouts are untouched. |
| WorkoutRoutes.DeleteWorkout | backend/app/routes/workouts.py:136-160 | 401, 500 invalid id, 404 with nothing changed. Otherwise exactly that one owned workout is removed. Other users' workouts are untouched. |

## Left out

- backend/app/utils/db.py, backend/app/__init__.py and backend/main.py are not part of this model: they hold the MongoDB connection, the Flask wiring and server start-up. The "MongoDB is not connected" 500 replies that depend on them are left out too.
- JWT encoding and decoding, werkzeug password hashing and `isoformat()` are passed in as function parameters (`encode`, `verify`, `hash`, `check`, `iso`). Random salting is not modelled: `hash` is one fixed function.
- `datetime.utcnow()` is the value parameter `now`. `Register` uses one such reading for both the user's `created_at` and the token's `exp`, where the source reads the clock twice: once for the user document in routes/auth.py and once in `create_access_token`.
- The generic `except Exception` handlers are left out: they catch database failures and log them with `print`.
- Pydantic validation of request bodies (`GymCreate`, `PostCreate`, `WorkoutCreate`) is not modelled, nor its 400 replies: requests arrive already typed as `GymRequest`, `PostRequest` and `WorkoutBody`.
- Request text members are strings, so a register, login or profile body with a non-string value for a text field is out of scope, as is a body that is JSON but not an object. Flask's own replies for bodies that are not JSON are left out as well.
- `UserPublic` validation in user search and the follower lists is not modelled: the model assumes every stored user passes it, so none is skipped.
- Stored documents always carry every field, so the `.get(..., default)` fallbacks used when reading users are not modelled.
- MongoDB's `$regex` matching in user search is the parameter `matches`. Gym search escapes the query, so it is modelled exactly as a literal substring match that ignores case.
- `str.lower` is ASCII lower-casing; Unicode case mapping is left out.
- The order of documents from an unsorted `find` is left open (`Database.Pick` chooses). Ties among equal timestamps or dates are broken one fixed way, while MongoDB leaves that order unspecified.
- Fresh ObjectIds for inserted documents are parameters (`newId`) that callers must supply as unused ids.
- `follows.created_at` is never read by the routes and is not stored.
- The following branches cannot be reached from a stored state and are not modelled:
  - the 404 "User not found" on `matched_count == 0` and both fallback replies after a profile update;
  - "Invalid climbing gym ID format", since every entry's error is caught inside the loop;
  - "Update failed" and "Delete failed".
- An update whose allowed fields are all absent sends an empty `$set`. MongoDB 5.0 and later accept it as a no-op, and so does the model. Older servers raise an error, which becomes a 400.
- bson's InvalidId message is `GymRoutes.InvalidIdText`. Its wording follows bson's message format, which is not part of the repository. The id is quoted simply as `'` + id + `'`, which is not Python's `repr` for ids that contain a quote or a backslash.
- The response JSON encoding of datetimes by `jsonify` is not modelled: `created_at` and `timestamp` stay `Date` values in those replies.
- The legacy backend/auth.py and backend/models.py are not part of this model: the app does not import them.
- UserRoutes.SearchUsers: when more than 20 users match, the contract does not say which 20 are returned, because MongoDB's natural order decides.
- GymRoutes.SearchGyms: likewise for more than 10 matching gyms.
- UserRoutes.UnfollowUser: uses the canonical id for the edge, matching the corrected follow in the Findings table. The source matches the edge with the raw path segment.

## Findings

| source | as written | input that shows it | evidently intended | confidence | as-written member | corrected member |
|---|---|---|---|---|---|---|
| backend/app/routes/users.py:93-119 | Two operations use the raw path segment: the self check and the stored follows edge. The user lookup and the follower counter use `ObjectId(user_id)`, which also accepts upper-case hex. | The user `aaaaaaaaaaaaaaaaaaaaaaaa` posts to `/follow/AAAAAAAAAAAAAAAAAAAAAAAA`. The reply is 201, their own follower counter goes to 1, and the edge names no stored id, so their follower counter no longer matches the follows collection. | Compare the id and store the edge in the canonical form `str(ObjectId(user_id))`, which rejects self-follows in either case and keeps the counters in step with the edges. | not executed | UserRoutes.FollowAsWritten, UserRoutes.SelfFollowThroughOtherSpelling, UserRoutes.SelfFollowThroughUpperCase | UserRoutes.FollowUser |
