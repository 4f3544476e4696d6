/**
 * backend/app/routes/auth.py: registration, login, the signed-in user's own
 * profile, and the profile and password updates.
 *
 * Request bodies are the JSON objects the client sends, with their text
 * members as strings; `None` is a request whose body is not a JSON object.
 * `hash` stands for werkzeug's `generate_password_hash`, `check` for
 * `check_password_hash`, `encode` for `jwt.encode` with the server's key,
 * `iso` for `datetime.isoformat`, `now` for `datetime.utcnow()`.
 */
module AuthRoutes {
  import opened Wrappers
  import opened Json
  import opened Ids
  import opened Seqs
  import opened Database
  import opened Middleware
  import UserRoutes

  type Body = map<string, string>

  const RequiredFields: seq<string> := ["username", "email", "password"]
  const ProfileFields: set<string> := {"username", "bio", "location", "avatar_url"}

  const NoData: Response := Response(400, ErrorBody("No data provided"))
  const EmailTaken: Response := Response(400, ErrorBody("Email already registered"))
  const UsernameTaken: Response := Response(400, ErrorBody("Username already taken"))
  const BadLogin: Response := Response(401, ErrorBody("Invalid email or password"))
  const GymIdsNotList: Response := Response(400, ErrorBody("climbing_gym_ids must be a list"))
  const WrongPassword: Response := Response(401, ErrorBody("Current password is incorrect"))
  const PasswordUpdated: Response := Response(200, MessageBody("Password updated successfully"))

  /** `str(e)` of the TypeError raised by subscripting a body that is not an object. */
  const NoneSubscript: string := "'NoneType' object is not subscriptable"

  /** `str(e)` of the KeyError raised by `data[k]`. */
  function KeyErrorText(k: string): string {
    "'" + k + "'"
  }

  // ---------------------------------------------------------------- stored-state invariants

  /** No two users share an email (register refuses a second one). */
  ghost predicate EmailsUnique(users: map<Id, User>) {
    forall a, b :: a in users && b in users && users[a].email == users[b].email ==> a == b
  }

  /** No two users share a username. */
  ghost predicate UsernamesUnique(users: map<Id, User>) {
    forall a, b :: a in users && b in users && users[a].username == users[b].username ==> a == b
  }

  predicate EmailInUse(users: map<Id, User>, email: string) {
    exists x :: x in users && users[x].email == email
  }

  /** Some user other than `except` already has `name`. */
  predicate UsernameInUse(users: map<Id, User>, name: string, except: Option<Id>) {
    exists x :: x in users && Some(x) != except && users[x].username == name
  }

  // ---------------------------------------------------------------- register

  /** The loop over `required_fields`: the first one the body lacks. */
  method FirstMissingField(data: Body) returns (missing: Option<string>)
    ensures missing.None? <==> forall f :: f in RequiredFields ==> f in data
    ensures missing.Some? ==>
      exists i :: 0 <= i < |RequiredFields| && RequiredFields[i] == missing.value && missing.value !in data
        && forall j :: 0 <= j < i ==> RequiredFields[j] in data
  {
    for i := 0 to |RequiredFields|
      invariant forall j :: 0 <= j < i ==> RequiredFields[j] in data
    {
      if RequiredFields[i] !in data {
        return Some(RequiredFields[i]);
      }
    }
    return None;
  }

  function Get(data: Body, k: string, default: string): string {
    if k in data then data[k] else default
  }

  /** The user a successful registration stores. */
  function NewUser(data: Body, hash: string -> string, now: Instant): User
    requires forall f :: f in RequiredFields ==> f in data
  {
    User(data["username"], data["email"], hash(data["password"]),
         Get(data, "bio", ""), Get(data, "location", ""), Get(data, "avatar_url", ""),
         now, Stats(0, 0, 0), None)
  }

  /** The `user` object of the register and login replies. */
  function AccountJson(id: Id, u: User): Value {
    Obj(map[
      "id" := Str(id), "username" := Str(u.username), "email" := Str(u.email),
      "bio" := Str(u.bio), "location" := Str(u.location), "avatar_url" := Str(u.avatarUrl),
      "created_at" := Date(u.createdAt), "stats" := StatsJson(u.stats)])
  }

  /** The token issued to user `id`. */
  function TokenFor(id: Id, encode: map<string, Value> -> string, now: Instant): string {
    encode(CreateAccessToken(map["sub" := Str(id)], now))
  }

  /** The reply to a successful registration. */
  function RegisteredReply(id: Id, u: User, encode: map<string, Value> -> string, now: Instant): Value {
    Obj(map[
      "message" := Str("User registered successfully"),
      "access_token" := Str(TokenFor(id, encode, now)),
      "token_type" := Str("bearer"),
      "user" := AccountJson(id, u)])
  }

  /** The reply to a successful login. */
  function LoginReply(id: Id, u: User, encode: map<string, Value> -> string, now: Instant): Value {
    Obj(map[
      "access_token" := Str(TokenFor(id, encode, now)),
      "token_type" := Str("bearer"),
      "user" := AccountJson(id, u)])
  }

  /** register. `newId` is the `_id` the insert creates. */
  method Register(db: Db, body: Option<Body>, hash: string -> string, encode: map<string, Value> -> string,
                  now: Instant, newId: Id)
    returns (r: Response)
    requires newId !in db.users && IsCanonical(newId)
    modifies db`users
    ensures (body.None? || body.value == map[]) ==> r == NoData && db.users == old(db.users)
    ensures body.Some? && body.value != map[] ==>
      var data := body.value;
      && (!(forall f :: f in RequiredFields ==> f in data) ==>
            r.status == 400 && db.users == old(db.users)
            && exists i :: 0 <= i < |RequiredFields| && RequiredFields[i] !in data
                 && (forall j :: 0 <= j < i ==> RequiredFields[j] in data)
                 && r.body == ErrorBody("Missing required field: " + RequiredFields[i]))
      && ((forall f :: f in RequiredFields ==> f in data) && EmailInUse(old(db.users), data["email"]) ==>
            r == EmailTaken && db.users == old(db.users))
      && ((forall f :: f in RequiredFields ==> f in data) && !EmailInUse(old(db.users), data["email"])
          && UsernameInUse(old(db.users), data["username"], None) ==>
            r == UsernameTaken && db.users == old(db.users))
      && ((forall f :: f in RequiredFields ==> f in data) && !EmailInUse(old(db.users), data["email"])
          && !UsernameInUse(old(db.users), data["username"], None) ==>
            && db.users == old(db.users)[newId := NewUser(data, hash, now)]
            && r == Response(200, RegisteredReply(newId, NewUser(data, hash, now), encode, now)))
    ensures EmailsUnique(old(db.users)) ==> EmailsUnique(db.users)
    ensures UsernamesUnique(old(db.users)) ==> UsernamesUnique(db.users)
    ensures EdgesBetweenUsers(old(db.users), db.follows) && CountersMatchEdges(old(db.users), db.follows) ==>
      EdgesBetweenUsers(db.users, db.follows) && CountersMatchEdges(db.users, db.follows)
  {
    if body.None? || body.value == map[] {
      return NoData;
    }
    var data := body.value;
    var missing := FirstMissingField(data);
    if missing.Some? {
      return Response(400, ErrorBody("Missing required field: " + missing.value));
    }
    if EmailInUse(db.users, data["email"]) {
      return EmailTaken;
    }
    if UsernameInUse(db.users, data["username"], None) {
      return UsernameTaken;
    }
    var u := NewUser(data, hash, now);
    if EdgesBetweenUsers(db.users, db.follows) && CountersMatchEdges(db.users, db.follows) {
      NewUserHasNoEdges(db.users, db.follows, newId, u);
    }
    db.users := db.users[newId := u];
    r := Response(200, RegisteredReply(newId, u, encode, now));
  }

  /** A user with fresh id and zero counters keeps the counters consistent with the edges. */
  lemma NewUserHasNoEdges(users: map<Id, User>, follows: set<Edge>, id: Id, u: User)
    requires EdgesBetweenUsers(users, follows) && CountersMatchEdges(users, follows)
    requires id !in users && u.stats == Stats(0, 0, 0)
    ensures EdgesBetweenUsers(users[id := u], follows) && CountersMatchEdges(users[id := u], follows)
  {
    assert FollowingIds(follows, id) == {} by {
      forall e | e in follows ensures e.0 != id { }
    }
    assert FollowerIds(follows, id) == {} by {
      forall e | e in follows ensures e.1 != id { }
    }
  }

  // ---------------------------------------------------------------- login

  /** login. `who` is the user `find_one({"email": ...})` returned, when there was one. */
  method Login(db: Db, body: Option<Body>, check: (string, string) -> bool,
               encode: map<string, Value> -> string, now: Instant)
    returns (r: Response, ghost who: Option<Id>)
    ensures body.None? ==> r == Response(400, ErrorBody(NoneSubscript))
    ensures body.Some? && "email" !in body.value ==> r == Response(400, ErrorBody(KeyErrorText("email")))
    ensures body.Some? && "email" in body.value ==>
      var data := body.value;
      && (who.None? <==> !EmailInUse(db.users, data["email"]))
      && (who.None? ==> r == BadLogin)
      && (who.Some? ==>
            && who.value in db.users && db.users[who.value].email == data["email"]
            && ("password" !in data ==> r == Response(400, ErrorBody(KeyErrorText("password"))))
            && ("password" in data && !VerifyPassword(check, data["password"], db.users[who.value].password) ==>
                  r == BadLogin)
            && ("password" in data && VerifyPassword(check, data["password"], db.users[who.value].password) ==>
                  r == Response(200, LoginReply(who.value, db.users[who.value], encode, now))))
  {
    who := None;
    if body.None? {
      return Response(400, ErrorBody(NoneSubscript)), who;
    }
    var data := body.value;
    if "email" !in data {
      return Response(400, ErrorBody(KeyErrorText("email"))), who;
    }
    if !EmailInUse(db.users, data["email"]) {
      return BadLogin, who;
    }
    var id :| id in db.users && db.users[id].email == data["email"];
    who := Some(id);
    if "password" !in data {
      return Response(400, ErrorBody(KeyErrorText("password"))), who;
    }
    var u := db.users[id];
    if !VerifyPassword(check, data["password"], u.password) {
      return BadLogin, who;
    }
    r := Response(200, LoginReply(id, u, encode, now));
  }

  /** With unique emails, login finds the one account that has the email. */
  lemma EmailFindsOwner(users: map<Id, User>, id: Id, other: Id)
    requires EmailsUnique(users)
    requires id in users && other in users && users[other].email == users[id].email
    ensures other == id
  {
  }

  /**
   * Registering and then logging in with the same email and password
   * succeeds, provided the hash library checks its own hashes.
   */
  method RegisterThenLogin(db: Db, data: Body, hash: string -> string, check: (string, string) -> bool,
                           encode: map<string, Value> -> string, now: Instant, newId: Id)
    returns (registered: Response, loggedIn: Response)
    requires newId !in db.users && IsCanonical(newId) && EmailsUnique(db.users)
    requires forall f :: f in RequiredFields ==> f in data
    requires !EmailInUse(db.users, data["email"]) && !UsernameInUse(db.users, data["username"], None)
    requires forall p :: hash(p) != "" && check(hash(p), p)
    modifies db`users
    ensures registered.status == 200
    ensures loggedIn == Response(200, LoginReply(newId, NewUser(data, hash, now), encode, now))
  {
    assert data != map[] by { assert "email" in data; }
    ghost var u := NewUser(data, hash, now);
    assert VerifyPassword(check, data["password"], u.password) by {
      assert u.password == hash(data["password"]);
      assert check(hash(data["password"]), data["password"]);
    }
    registered := Register(db, Some(data), hash, encode, now, newId);
    assert db.users == old(db.users)[newId := u];
    assert EmailsUnique(db.users);
    assert EmailInUse(db.users, data["email"]) by { assert db.users[newId].email == data["email"]; }
    ghost var who;
    loggedIn, who := Login(db, Some(data), check, encode, now);
    EmailFindsOwner(db.users, newId, who.value);
  }

  // ---------------------------------------------------------------- the signed-in user's profile

  /** The ids in a stored `climbing_gym_ids` list. */
  function GymKeys(ids: Option<seq<ObjectId>>): set<Id> {
    match ids
    case None => {}
    case Some(xs) => set o | o in xs :: o.hex
  }

  /** `db.gyms.find({"_id": {"$in": ids}})`, shaped as `{id, name, location}`. */
  method ClimbingGyms(db: Db, ids: Option<seq<ObjectId>>) returns (items: seq<Value>, ghost shown: seq<Id>)
    ensures Distinct(shown)
    ensures forall x :: x in shown <==> x in GymKeys(ids) && x in db.gyms
    ensures items == GymRefList(db.gyms, shown)
  {
    var present := set x | x in GymKeys(ids) && x in db.gyms;
    var order := Pick(present, |present|);
    items := [];
    for i := 0 to |order|
      invariant |items| == i
      invariant forall j :: 0 <= j < i ==> items[j] == GymRefJson(order[j], db.gyms[order[j]])
    {
      items := items + [GymRefJson(order[i], db.gyms[order[i]])];
    }
    shown := order;
  }

  /** A stored list that is there and not empty (Python truthiness of the serialised list). */
  predicate HasGyms(ids: Option<seq<ObjectId>>) {
    ids.Some? && |ids.value| > 0
  }

  /** The `{id, name, location}` entries of the gyms in `shown`, in that order. */
  function GymRefList(gyms: map<Id, Gym>, shown: seq<Id>): seq<Value>
    requires forall x :: x in shown ==> x in gyms
  {
    seq(|shown|, i requires 0 <= i < |shown| => GymRefJson(shown[i], gyms[shown[i]]))
  }

  /** The reply of get_current_user_profile for user `me`, given the recounted stats and the gym entries. */
  function OwnProfileView(me: Id, u: User, stats: Stats, gyms: seq<Value>, iso: Instant -> string): Value {
    var doc := Serialize(UserDoc(me, u), iso);
    Obj(doc.fields["stats" := StatsJson(stats)]["climbing_gyms" := Arr(gyms)] - {"password"})
  }

  /** The own-profile reply: the stored document made JSON-safe, without the password hash. */
  lemma OwnProfileViewFields(me: Id, u: User, stats: Stats, gyms: seq<Value>, iso: Instant -> string)
    ensures var v := OwnProfileView(me, u, stats, gyms, iso);
      && v.Obj?
      && v.fields.Keys == UserDoc(me, u).fields.Keys - {"password"} + {"climbing_gyms"}
      && "password" !in v.fields
      && v.fields["_id"] == Str(me)
      && v.fields["created_at"] == Str(iso(u.createdAt))
      && v.fields["stats"] == StatsJson(stats)
      && v.fields["climbing_gyms"] == Arr(gyms)
  {
    SerializedUserDoc(me, u, iso);
    var sd := Serialize(UserDoc(me, u), iso);
    OwnReplyMembers(sd.fields, StatsJson(stats), Arr(gyms));
  }

  /** Replacing `stats`, adding `climbing_gyms` and dropping `password` leaves the other members alone. */
  lemma OwnReplyMembers(m: map<string, Value>, stats: Value, gyms: Value)
    requires "stats" in m
    ensures var v := m["stats" := stats]["climbing_gyms" := gyms] - {"password"};
      && v.Keys == m.Keys - {"password"} + {"climbing_gyms"}
      && v["stats"] == stats && v["climbing_gyms"] == gyms
      && forall k :: k in m && k !in {"stats", "climbing_gyms", "password"} ==> v[k] == m[k]
  {
  }

  /** get_current_user_profile. */
  method GetCurrentUserProfile(db: Db, caller: Option<Id>, iso: Instant -> string)
    returns (r: Response, ghost shown: seq<Id>)
    ensures !UserRoutes.SignedIn(db, caller) ==> r == NotAuthenticated
    ensures UserRoutes.SignedIn(db, caller) ==>
      var me := caller.value;
      var u := db.users[me];
      && Distinct(shown)
      && (forall x :: x in shown <==> HasGyms(u.gymIds) && x in GymKeys(u.gymIds) && x in db.gyms)
      && r == Response(200, OwnProfileView(me, u,
                Stats(|PostsBy(db.posts, me)|, |FollowerIds(db.follows, me)|, |FollowingIds(db.follows, me)|),
                GymRefList(db.gyms, shown), iso))
  {
    shown := [];
    if !UserRoutes.SignedIn(db, caller) {
      return NotAuthenticated, shown;
    }
    var me := caller.value;
    var u := db.users[me];
    var doc := Serialize(UserDoc(me, u), iso);
    var fields := doc.fields;
    var stats := Stats(|PostsBy(db.posts, me)|, |FollowerIds(db.follows, me)|, |FollowingIds(db.follows, me)|);
    fields := fields["stats" := StatsJson(stats)];
    var gyms: seq<Value> := [];
    if HasGyms(u.gymIds) {
      gyms, shown := ClimbingGyms(db, u.gymIds);
    }
    assert gyms == GymRefList(db.gyms, shown);
    fields := fields["climbing_gyms" := Arr(gyms)];
    fields := fields - {"password"};
    r := Response(200, Obj(fields));
  }

  // ---------------------------------------------------------------- profile update

  /**
   * A profile update body: its text members, and `climbing_gym_ids` if the
   * body has that key (any JSON value).
   */
  datatype ProfileRequest = ProfileRequest(fields: Body, gymIds: Option<Value>)

  /** Python truthiness of the body: an empty object is refused like a missing one. */
  predicate EmptyRequest(body: Option<ProfileRequest>) {
    body.None? || (body.value.fields == map[] && body.value.gymIds.None?)
  }

  /** One entry of `climbing_gym_ids` as the loop treats it: kept only when `ObjectId(gym_id)` accepts it. */
  function KeepId(v: Value): Option<ObjectId> {
    match v
    case Str(s) => ParseObjectId(s)
    case _ => None
  }

  /** The ObjectIds the loop keeps, in list order. */
  function KeptIds(vs: seq<Value>): (ids: seq<ObjectId>)
    ensures |ids| <= |vs|
  {
    if vs == [] then []
    else
      var last := KeepId(vs[|vs| - 1]);
      KeptIds(vs[..|vs| - 1]) + (if last.Some? then [last.value] else [])
  }

  /** What the kept list holds: exactly the parseable entries, none of them in upper case. */
  lemma {:induction false} KeptIdsMembers(vs: seq<Value>)
    ensures forall o :: o in KeptIds(vs) <==> exists i :: 0 <= i < |vs| && KeepId(vs[i]) == Some(o)
    ensures forall o :: o in KeptIds(vs) ==> IsCanonical(o.hex)
  {
    if vs != [] {
      var init := vs[..|vs| - 1];
      KeptIdsMembers(init);
      forall o ensures o in KeptIds(vs) <==> exists i :: 0 <= i < |vs| && KeepId(vs[i]) == Some(o) {
        if o in KeptIds(vs) && o !in KeptIds(init) {
          assert KeepId(vs[|vs| - 1]) == Some(o);
        }
        if exists i :: 0 <= i < |vs| && KeepId(vs[i]) == Some(o) {
          var i :| 0 <= i < |vs| && KeepId(vs[i]) == Some(o);
          if i < |vs| - 1 {
            assert init[i] == vs[i];
          }
        }
      }
    }
  }

  /** Cleaning a list piece by piece gives the pieces' results in the same order. */
  lemma {:induction false} KeptIdsAppend(a: seq<Value>, b: seq<Value>)
    ensures KeptIds(a + b) == KeptIds(a) + KeptIds(b)
    decreases |b|
  {
    if b == [] {
      assert a + b == a;
    } else {
      var init := b[..|b| - 1];
      assert (a + b)[..|a + b| - 1] == a + init;
      assert (a + b)[|a + b| - 1] == b[|b| - 1];
      KeptIdsAppend(a, init);
    }
  }

  /** The loop over `climbing_gym_ids`, keeping the entries that are ObjectIds. */
  method CleanGymIds(vs: seq<Value>) returns (ids: seq<ObjectId>)
    ensures ids == KeptIds(vs)
  {
    ids := [];
    for i := 0 to |vs|
      invariant ids == KeptIds(vs[..i])
    {
      assert vs[..i + 1][..i] == vs[..i];
      if Truthy(vs[i]) {
        var oid := KeepId(vs[i]);
        if oid.Some? {
          ids := ids + [oid.value];
        }
      } else {
        assert KeepId(vs[i]).None?;
      }
    }
    assert vs[..|vs|] == vs;
  }

  /** The `$set` of update_user_profile applied to the stored user. */
  function ApplyProfile(u: User, fields: Body, gymIds: Option<seq<ObjectId>>): User {
    u.(username := Get(fields, "username", u.username),
       bio := Get(fields, "bio", u.bio),
       location := Get(fields, "location", u.location),
       avatarUrl := Get(fields, "avatar_url", u.avatarUrl),
       gymIds := if gymIds.Some? then gymIds else u.gymIds)
  }

  /** A profile update never touches the email, the password hash, the counters or the creation date. */
  lemma ApplyProfileKeepsAccount(u: User, fields: Body, gymIds: Option<seq<ObjectId>>)
    ensures var v := ApplyProfile(u, fields, gymIds);
      && v.email == u.email && v.password == u.password && v.stats == u.stats && v.createdAt == u.createdAt
      && (forall k :: k in fields && k in ProfileFields ==>
            (k == "username" ==> v.username == fields[k]) && (k == "bio" ==> v.bio == fields[k])
            && (k == "location" ==> v.location == fields[k]) && (k == "avatar_url" ==> v.avatarUrl == fields[k]))
      && (gymIds.None? ==> v.gymIds == u.gymIds)
      && (fields.Keys !! ProfileFields && gymIds.None? ==> v == u)
  {
  }

  /** A profile update that passed the username check keeps the stored-state invariants. */
  lemma ApplyProfileKeepsInvariants(users: map<Id, User>, follows: set<Edge>, me: Id, fields: Body,
                                    gymIds: Option<seq<ObjectId>>)
    requires me in users
    requires !("username" in fields && UsernameInUse(users, fields["username"], Some(me)))
    ensures var after := users[me := ApplyProfile(users[me], fields, gymIds)];
      && (EmailsUnique(users) ==> EmailsUnique(after))
      && (UsernamesUnique(users) ==> UsernamesUnique(after))
      && (CountersMatchEdges(users, follows) ==> CountersMatchEdges(after, follows))
  {
    var after := users[me := ApplyProfile(users[me], fields, gymIds)];
    ApplyProfileKeepsAccount(users[me], fields, gymIds);
  }

  /** The gym list a request sets, if it sets one. */
  function RequestedGymIds(req: ProfileRequest): Option<seq<ObjectId>>
    requires req.gymIds.Some? ==> req.gymIds.value.Arr?
  {
    if req.gymIds.Some? then Some(KeptIds(req.gymIds.value.items)) else None
  }

  /** The reply of update_user_profile: the re-read document, without the hash and the raw gym ids. */
  function UpdatedProfileView(me: Id, u: User, gyms: seq<Value>, iso: Instant -> string): Value {
    var doc := Serialize(UserDoc(me, u), iso);
    Obj(doc.fields["climbing_gyms" := Arr(gyms)] - {"password", "climbing_gym_ids"})
  }

  /** The updated profile has the stored document's keys, without the hash and the raw gym ids. */
  lemma UpdatedProfileViewKeys(me: Id, u: User, gyms: seq<Value>, iso: Instant -> string)
    ensures var v := UpdatedProfileView(me, u, gyms, iso);
      && v.Obj?
      && v.fields.Keys == UserDoc(me, u).fields.Keys - {"password", "climbing_gym_ids"} + {"climbing_gyms"}
      && "password" !in v.fields && "climbing_gym_ids" !in v.fields
      && v.fields["climbing_gyms"] == Arr(gyms)
  {
  }

  /** The updated profile shows the stored fields (the stored counters, not recounted ones). */
  lemma UpdatedProfileViewFields(me: Id, u: User, gyms: seq<Value>, iso: Instant -> string)
    ensures var v := UpdatedProfileView(me, u, gyms, iso);
      && v.Obj?
      && v.fields["_id"] == Str(me)
      && v.fields["username"] == Str(u.username)
      && v.fields["bio"] == Str(u.bio)
      && v.fields["stats"] == StatsJson(u.stats)
  {
    SerializedUserDoc(me, u, iso);
    var sd := Serialize(UserDoc(me, u), iso);
    KeptField(sd.fields, gyms, "_id");
    KeptField(sd.fields, gyms, "username");
    KeptField(sd.fields, gyms, "bio");
    KeptField(sd.fields, gyms, "stats");
  }

  /** The converted user document: the id as its hex string, the text and counters as stored. */
  lemma SerializedUserDoc(me: Id, u: User, iso: Instant -> string)
    ensures var sd := Serialize(UserDoc(me, u), iso);
      && sd.Obj?
      && sd.fields.Keys == UserDoc(me, u).fields.Keys
      && {"_id", "username", "bio", "stats", "created_at", "password"} <= sd.fields.Keys
      && sd.fields["_id"] == Str(me)
      && sd.fields["created_at"] == Str(iso(u.createdAt))
      && sd.fields["username"] == Str(u.username)
      && sd.fields["bio"] == Str(u.bio)
      && sd.fields["stats"] == StatsJson(u.stats)
  {
    UserDocFields(me, u);
    var d := UserDoc(me, u);
    SerializedDates(d, me, u.createdAt, iso);
    SerializedText(d, u.username, u.bio, u.stats, iso);
  }

  /** The converted id and creation date. */
  lemma SerializedDates(d: Value, me: Id, t: Instant, iso: Instant -> string)
    requires d.Obj? && "_id" in d.fields && "created_at" in d.fields
    requires d.fields["_id"] == Oid(ObjectId(me)) && d.fields["created_at"] == Date(t)
    ensures var sd := Serialize(d, iso);
      && sd.Obj? && sd.fields.Keys == d.fields.Keys
      && sd.fields["_id"] == Str(me) && sd.fields["created_at"] == Str(iso(t))
  {
    SerializeEntries(d, iso);
  }

  /** Text and counters pass through the conversion unchanged. */
  lemma SerializedText(d: Value, name: string, bio: string, stats: Stats, iso: Instant -> string)
    requires d.Obj? && "username" in d.fields && "bio" in d.fields && "stats" in d.fields
    requires d.fields["username"] == Str(name) && d.fields["bio"] == Str(bio) && d.fields["stats"] == StatsJson(stats)
    ensures var sd := Serialize(d, iso);
      && sd.Obj?
      && sd.fields["username"] == Str(name) && sd.fields["bio"] == Str(bio) && sd.fields["stats"] == StatsJson(stats)
  {
    SerializeEntries(d, iso);
    SerializePlain(StatsJson(stats), iso);
  }

  /** Members other than the three the reply replaces or drops are passed through. */
  lemma KeptField(m: map<string, Value>, gyms: seq<Value>, k: string)
    requires k in m && k != "climbing_gyms" && k != "password" && k != "climbing_gym_ids"
    ensures var kept := m["climbing_gyms" := Arr(gyms)] - {"password", "climbing_gym_ids"};
      k in kept && kept[k] == m[k]
  {
  }

  /** update_user_profile. */
  method UpdateUserProfile(db: Db, caller: Option<Id>, body: Option<ProfileRequest>, iso: Instant -> string)
    returns (r: Response, ghost shown: seq<Id>)
    modifies db`users
    ensures !old(UserRoutes.SignedIn(db, caller)) ==> r == NotAuthenticated && db.users == old(db.users)
    ensures old(UserRoutes.SignedIn(db, caller)) && EmptyRequest(body) ==> r == NoData && db.users == old(db.users)
    ensures old(UserRoutes.SignedIn(db, caller)) && !EmptyRequest(body) && body.value.gymIds.Some?
            && !body.value.gymIds.value.Arr? ==>
      r == GymIdsNotList && db.users == old(db.users)
    ensures old(UserRoutes.SignedIn(db, caller)) && !EmptyRequest(body)
            && (body.value.gymIds.Some? ==> body.value.gymIds.value.Arr?) ==>
      var me, req := caller.value, body.value;
      && ("username" in req.fields && UsernameInUse(old(db.users), req.fields["username"], Some(me)) ==>
            r == UsernameTaken && db.users == old(db.users))
      && (!("username" in req.fields && UsernameInUse(old(db.users), req.fields["username"], Some(me))) ==>
            var nu := ApplyProfile(old(db.users)[me], req.fields, RequestedGymIds(req));
            && db.users == old(db.users)[me := nu]
            && Distinct(shown)
            && (forall x :: x in shown <==> HasGyms(nu.gymIds) && x in GymKeys(nu.gymIds) && x in db.gyms)
            && r == Response(200, UpdatedProfileView(me, nu, GymRefList(db.gyms, shown), iso)))
    ensures EmailsUnique(old(db.users)) ==> EmailsUnique(db.users)
    ensures UsernamesUnique(old(db.users)) ==> UsernamesUnique(db.users)
    ensures CountersMatchEdges(old(db.users), db.follows) ==> CountersMatchEdges(db.users, db.follows)
  {
    shown := [];
    if !UserRoutes.SignedIn(db, caller) {
      return NotAuthenticated, shown;
    }
    var me := caller.value;
    if EmptyRequest(body) {
      return NoData, shown;
    }
    var req := body.value;
    var gymIds: Option<seq<ObjectId>> := None;
    if req.gymIds.Some? {
      if !req.gymIds.value.Arr? {
        return GymIdsNotList, shown;
      }
      var kept := CleanGymIds(req.gymIds.value.items);
      gymIds := Some(kept);
    }
    if "username" in req.fields && UsernameInUse(db.users, req.fields["username"], Some(me)) {
      return UsernameTaken, shown;
    }
    var u := db.users[me];
    var nu := ApplyProfile(u, req.fields, gymIds);
    ApplyProfileKeepsInvariants(db.users, db.follows, me, req.fields, gymIds);
    db.users := db.users[me := nu];
    var doc := Serialize(UserDoc(me, nu), iso);
    var fields := doc.fields;
    var gyms: seq<Value> := [];
    if HasGyms(nu.gymIds) {
      gyms, shown := ClimbingGyms(db, nu.gymIds);
    }
    assert gyms == GymRefList(db.gyms, shown);
    fields := fields["climbing_gyms" := Arr(gyms)];
    fields := fields - {"password", "climbing_gym_ids"};
    r := Response(200, Obj(fields));
  }

  // ---------------------------------------------------------------- password

  /** update_password. */
  method UpdatePassword(db: Db, caller: Option<Id>, body: Option<Body>,
                        hash: string -> string, check: (string, string) -> bool)
    returns (r: Response)
    modifies db`users
    ensures !old(UserRoutes.SignedIn(db, caller)) ==> r == NotAuthenticated && db.users == old(db.users)
    ensures old(UserRoutes.SignedIn(db, caller)) ==>
      var me := caller.value;
      && (body.None? ==>
            r == Response(400, ErrorBody("Invalid request data: " + NoneSubscript)) && db.users == old(db.users))
      && (body.Some? && "current_password" !in body.value ==>
            r == Response(400, ErrorBody("Invalid request data: " + KeyErrorText("current_password")))
            && db.users == old(db.users))
      && (body.Some? && "current_password" in body.value
          && !VerifyPassword(check, body.value["current_password"], old(db.users)[me].password) ==>
            r == WrongPassword && db.users == old(db.users))
      && (body.Some? && "current_password" in body.value
          && VerifyPassword(check, body.value["current_password"], old(db.users)[me].password) ==>
            && ("new_password" !in body.value ==>
                  r == Response(400, ErrorBody("Invalid request data: " + KeyErrorText("new_password")))
                  && db.users == old(db.users))
            && ("new_password" in body.value ==>
                  && r == PasswordUpdated
                  && db.users == old(db.users)[me := old(db.users)[me].(password := hash(body.value["new_password"]))]
                  && ((forall p :: hash(p) != "" && check(hash(p), p)) ==>
                        VerifyPassword(check, body.value["new_password"], db.users[me].password))))
    ensures EmailsUnique(old(db.users)) ==> EmailsUnique(db.users)
    ensures UsernamesUnique(old(db.users)) ==> UsernamesUnique(db.users)
    ensures CountersMatchEdges(old(db.users), db.follows) ==> CountersMatchEdges(db.users, db.follows)
  {
    if !UserRoutes.SignedIn(db, caller) {
      return NotAuthenticated;
    }
    var me := caller.value;
    if body.None? {
      return Response(400, ErrorBody("Invalid request data: " + NoneSubscript));
    }
    var data := body.value;
    if "current_password" !in data {
      return Response(400, ErrorBody("Invalid request data: " + KeyErrorText("current_password")));
    }
    if !VerifyPassword(check, data["current_password"], db.users[me].password) {
      return WrongPassword;
    }
    if "new_password" !in data {
      return Response(400, ErrorBody("Invalid request data: " + KeyErrorText("new_password")));
    }
    db.users := db.users[me := db.users[me].(password := hash(data["new_password"]))];
    return PasswordUpdated;
  }
}
