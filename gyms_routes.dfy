/**
 * backend/app/routes/gyms.py: searching, adding, reading, updating and
 * deleting gyms. A gym is found by the lower-cased name (`name_lower`), and
 * only the user who added it may change or delete it.
 */
module GymRoutes {
  import opened Wrappers
  import opened Json
  import opened Ids
  import opened Seqs
  import opened Database
  import UserRoutes

  const SearchLimit: nat := 10

  const GymNotFound: Response := Response(404, ErrorBody("Gym not found"))
  const NotOwnerUpdate: Response := Response(403, ErrorBody("Not authorized to update this gym"))
  const NotOwnerDelete: Response := Response(403, ErrorBody("Not authorized to delete this gym"))
  const GymDeleted: Response := Response(200, MessageBody("Gym deleted successfully"))

  /** A validated GymCreate body. */
  datatype GymRequest = GymRequest(name: string, location: string, franchise: Option<string>)

  /** An error reply whose text is the exception's message (bson's InvalidId here). */
  predicate IsErrorReply(r: Response, status: int) {
    r.status == status && r.body.Obj? && r.body.fields.Keys == {"error"} && r.body.fields["error"].Str?
  }

  /** The text of the InvalidId exception bson raises for `s`. */
  function InvalidIdText(s: string): string {
    "'" + s + "' is not a valid ObjectId, it must be a 12-byte input or a 24-character hex string"
  }

  // ---------------------------------------------------------------- invariants

  /** Every gym's `name_lower` is its name lower-cased. */
  ghost predicate NameKeysMatch(gyms: map<Id, Gym>) {
    forall id :: id in gyms ==> gyms[id].nameLower == Lower(gyms[id].name)
  }

  /** No two gyms share a `name_lower`. */
  ghost predicate NameKeysUnique(gyms: map<Id, Gym>) {
    forall a, b :: a in gyms && b in gyms && gyms[a].nameLower == gyms[b].nameLower ==> a == b
  }

  predicate NameKnown(gyms: map<Id, Gym>, key: string) {
    exists id :: id in gyms && gyms[id].nameLower == key
  }

  // ---------------------------------------------------------------- search

  function SearchCandidates(gyms: map<Id, Gym>, q: string): set<Id> {
    set id | id in gyms && ContainsIgnoringCase(gyms[id].name, q)
  }

  /** search_gyms: up to 10 gyms whose name contains `q`, ignoring case. */
  method SearchGyms(db: Db, q: string) returns (r: Response, ghost found: seq<Id>)
    ensures q == "" ==> r == Response(200, Arr([]))
    ensures q != "" ==>
      var candidates := SearchCandidates(db.gyms, q);
      && r.status == 200 && r.body.Arr?
      && Distinct(found)
      && (forall i :: 0 <= i < |found| ==> found[i] in db.gyms && ContainsIgnoringCase(db.gyms[found[i]].name, q))
      && |found| == (if |candidates| <= SearchLimit then |candidates| else SearchLimit)
      && (|candidates| <= SearchLimit ==> forall id :: id in candidates ==> id in found)
      && |r.body.items| == |found|
      && (forall i :: 0 <= i < |found| ==> r.body.items[i] == GymJson(found[i], db.gyms[found[i]]))
  {
    found := [];
    if q == "" {
      return Response(200, Arr([])), found;
    }
    var ids := Pick(SearchCandidates(db.gyms, q), SearchLimit);
    var items: seq<Value> := [];
    for i := 0 to |ids|
      invariant |items| == i
      invariant forall j :: 0 <= j < i ==> items[j] == GymJson(ids[j], db.gyms[ids[j]])
    {
      items := items + [GymJson(ids[i], db.gyms[ids[i]])];
    }
    found := ids;
    r := Response(200, Arr(items));
  }

  /** The gym a successful add stores. */
  function NewGym(req: GymRequest, me: Id, now: Instant): Gym {
    Gym(req.name, req.location, req.franchise, Lower(req.name), me, now)
  }

  // ---------------------------------------------------------------- add

  /**
   * add_gym. `which` is the gym the reply shows: the one already stored
   * under the same lower-cased name, or the new one under `newId`.
   */
  method AddGym(db: Db, caller: Option<Id>, req: GymRequest, now: Instant, newId: Id)
    returns (r: Response, ghost which: Id)
    requires newId !in db.gyms
    modifies db`gyms
    ensures !UserRoutes.SignedIn(db, caller) ==> r == NotAuthenticated && db.gyms == old(db.gyms)
    ensures UserRoutes.SignedIn(db, caller) && NameKnown(old(db.gyms), Lower(req.name)) ==>
      && db.gyms == old(db.gyms)
      && which in db.gyms && db.gyms[which].nameLower == Lower(req.name)
      && r == Response(200, GymJson(which, db.gyms[which]))
    ensures UserRoutes.SignedIn(db, caller) && !NameKnown(old(db.gyms), Lower(req.name)) ==>
      && which == newId
      && db.gyms == old(db.gyms)[newId := NewGym(req, caller.value, now)]
      && r == Response(201, GymJson(newId, NewGym(req, caller.value, now)))
    ensures NameKeysMatch(old(db.gyms)) ==> NameKeysMatch(db.gyms)
    ensures NameKeysUnique(old(db.gyms)) ==> NameKeysUnique(db.gyms)
  {
    which := newId;
    if !UserRoutes.SignedIn(db, caller) {
      return NotAuthenticated, which;
    }
    var key := Lower(req.name);
    if NameKnown(db.gyms, key) {
      var id :| id in db.gyms && db.gyms[id].nameLower == key;
      which := id;
      return Response(200, GymJson(id, db.gyms[id])), which;
    }
    var g := NewGym(req, caller.value, now);
    LowerIdempotent(req.name);
    db.gyms := db.gyms[newId := g];
    r := Response(201, GymJson(newId, g));
  }

  /**
   * Adding the same gym twice: the second add stores nothing and shows the
   * gym the first add created, also when the name differs only in case.
   */
  method AddGymTwice(db: Db, caller: Option<Id>, req: GymRequest, again: GymRequest, now: Instant,
                     newId: Id, otherId: Id)
    returns (first: Response, second: Response)
    requires UserRoutes.SignedIn(db, caller) && NameKeysUnique(db.gyms)
    requires newId !in db.gyms && otherId !in db.gyms && otherId != newId
    requires !NameKnown(db.gyms, Lower(req.name)) && Lower(again.name) == Lower(req.name)
    modifies db`gyms
    ensures first == Response(201, GymJson(newId, NewGym(req, caller.value, now)))
    ensures second == Response(200, GymJson(newId, NewGym(req, caller.value, now)))
    ensures db.gyms == old(db.gyms)[newId := NewGym(req, caller.value, now)]
  {
    ghost var w1, w2;
    first, w1 := AddGym(db, caller, req, now, newId);
    assert db.gyms[newId].nameLower == Lower(again.name);
    second, w2 := AddGym(db, caller, again, now, otherId);
  }

  // ---------------------------------------------------------------- read, update, delete

  /** get_gym (it checks the token, not the user). */
  method GetGym(db: Db, gymId: string) returns (r: Response)
    ensures ParseObjectId(gymId).None? ==> r == Response(500, ErrorBody(InvalidIdText(gymId))) && IsErrorReply(r, 500)
    ensures ParseObjectId(gymId).Some? && Lower(gymId) !in db.gyms ==> r == GymNotFound
    ensures ParseObjectId(gymId).Some? && Lower(gymId) in db.gyms ==>
      r == Response(200, GymJson(Lower(gymId), db.gyms[Lower(gymId)]))
  {
    var oid := ParseObjectId(gymId);
    if oid.None? {
      return Response(500, ErrorBody(InvalidIdText(gymId)));
    }
    var id := oid.value.hex;
    if id !in db.gyms {
      return GymNotFound;
    }
    r := Response(200, GymJson(id, db.gyms[id]));
  }

  /** The `$set` of update_gym: the request's fields and its lower-cased name; owner and date stay. */
  function Renamed(g: Gym, req: GymRequest): (h: Gym)
    ensures h.addedBy == g.addedBy && h.createdAt == g.createdAt
    ensures h.nameLower == Lower(h.name)
  {
    g.(name := req.name, location := req.location, franchise := req.franchise, nameLower := Lower(req.name))
  }

  /** update_gym. */
  method UpdateGym(db: Db, caller: Option<Id>, gymId: string, req: GymRequest) returns (r: Response)
    modifies db`gyms
    ensures !old(UserRoutes.SignedIn(db, caller)) ==> r == NotAuthenticated && db.gyms == old(db.gyms)
    ensures old(UserRoutes.SignedIn(db, caller)) && ParseObjectId(gymId).None? ==>
      r == Response(400, ErrorBody(InvalidIdText(gymId))) && db.gyms == old(db.gyms)
    ensures old(UserRoutes.SignedIn(db, caller)) && ParseObjectId(gymId).Some? ==>
      var id := Lower(gymId);
      && (id !in old(db.gyms) ==> r == GymNotFound && db.gyms == old(db.gyms))
      && (id in old(db.gyms) && old(db.gyms)[id].addedBy != caller.value ==>
            r == NotOwnerUpdate && db.gyms == old(db.gyms))
      && (id in old(db.gyms) && old(db.gyms)[id].addedBy == caller.value ==>
            && db.gyms == old(db.gyms)[id := Renamed(old(db.gyms)[id], req)]
            && r == Response(200, GymJson(id, db.gyms[id])))
    ensures NameKeysMatch(old(db.gyms)) ==> NameKeysMatch(db.gyms)
    ensures forall id :: id in db.gyms ==> id in old(db.gyms) && db.gyms[id].addedBy == old(db.gyms)[id].addedBy
  {
    if !UserRoutes.SignedIn(db, caller) {
      return NotAuthenticated;
    }
    var oid := ParseObjectId(gymId);
    if oid.None? {
      return Response(400, ErrorBody(InvalidIdText(gymId)));
    }
    var id := oid.value.hex;
    if id !in db.gyms {
      return GymNotFound;
    }
    if db.gyms[id].addedBy != caller.value {
      return NotOwnerUpdate;
    }
    db.gyms := db.gyms[id := Renamed(db.gyms[id], req)];
    r := Response(200, GymJson(id, db.gyms[id]));
  }

  /**
   * update_gym does not look for another gym with the new name, so two gyms
   * can end up under one `name_lower`, and add_gym's lookup by that key then
   * no longer names a single gym.
   */
  lemma RenameCanCollide(gyms: map<Id, Gym>, a: Id, b: Id, req: GymRequest)
    requires a in gyms && b in gyms && a != b
    requires NameKeysMatch(gyms) && Lower(req.name) == Lower(gyms[b].name)
    ensures !NameKeysUnique(gyms[a := Renamed(gyms[a], req)])
  {
    var after := gyms[a := Renamed(gyms[a], req)];
    assert after[a].nameLower == after[b].nameLower;
  }

  /** delete_gym. */
  method DeleteGym(db: Db, caller: Option<Id>, gymId: string) returns (r: Response)
    modifies db`gyms
    ensures !old(UserRoutes.SignedIn(db, caller)) ==> r == NotAuthenticated && db.gyms == old(db.gyms)
    ensures old(UserRoutes.SignedIn(db, caller)) && ParseObjectId(gymId).None? ==>
      r == Response(500, ErrorBody(InvalidIdText(gymId))) && db.gyms == old(db.gyms)
    ensures old(UserRoutes.SignedIn(db, caller)) && ParseObjectId(gymId).Some? ==>
      var id := Lower(gymId);
      && (id !in old(db.gyms) ==> r == GymNotFound && db.gyms == old(db.gyms))
      && (id in old(db.gyms) && old(db.gyms)[id].addedBy != caller.value ==>
            r == NotOwnerDelete && db.gyms == old(db.gyms))
      && (id in old(db.gyms) && old(db.gyms)[id].addedBy == caller.value ==>
            r == GymDeleted && db.gyms == old(db.gyms) - {id})
    ensures NameKeysMatch(old(db.gyms)) ==> NameKeysMatch(db.gyms)
    ensures NameKeysUnique(old(db.gyms)) ==> NameKeysUnique(db.gyms)
  {
    if !UserRoutes.SignedIn(db, caller) {
      return NotAuthenticated;
    }
    var oid := ParseObjectId(gymId);
    if oid.None? {
      return Response(500, ErrorBody(InvalidIdText(gymId)));
    }
    var id := oid.value.hex;
    if id !in db.gyms {
      return GymNotFound;
    }
    if db.gyms[id].addedBy != caller.value {
      return NotOwnerDelete;
    }
    db.gyms := db.gyms - {id};
    return GymDeleted;
  }
}
