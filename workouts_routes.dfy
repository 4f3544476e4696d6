/**
 * backend/app/routes/workouts.py: a user's climbing sessions. Every route
 * works on the caller's own workouts only: another user's workout is "not
 * found" to the caller.
 */
module WorkoutRoutes {
  import opened Wrappers
  import opened Json
  import opened Ids
  import opened Seqs
  import opened Database
  import UserRoutes
  import GymRoutes

  const WorkoutNotFound: Response := Response(404, ErrorBody("Workout not found"))
  const WorkoutDeleted: Response := Response(200, MessageBody("Workout deleted successfully"))

  /** The ids of the workouts of user `me`. */
  function Owned(ws: map<Id, Workout>, me: Id): set<Id> {
    set id | id in ws && ws[id].userId == me
  }

  /** The session date of workout `id`, the sort key of get_workouts. */
  function DateOf(ws: map<Id, Workout>): Id -> int {
    (id: Id) => if id in ws then ws[id].body.date else 0
  }

  /** The caller's own workout under path id `workoutId`, if the id parses and there is one. */
  predicate OwnsWorkout(ws: map<Id, Workout>, me: Id, id: Id) {
    id in ws && ws[id].userId == me
  }

  /** Workouts of users other than `me` are exactly as they were. */
  predicate OthersUntouched(before: map<Id, Workout>, after: map<Id, Workout>, me: Id) {
    forall id :: id in before && before[id].userId != me ==> id in after && after[id] == before[id]
  }

  /** The loop building the reply list of get_workouts. */
  method RenderWorkouts(ws: map<Id, Workout>, ids: seq<Id>) returns (items: seq<Value>)
    requires forall i :: 0 <= i < |ids| ==> ids[i] in ws
    ensures |items| == |ids|
    ensures forall i :: 0 <= i < |ids| ==> items[i] == WorkoutJson(ids[i], ws[ids[i]])
  {
    items := [];
    for i := 0 to |ids|
      invariant |items| == i
      invariant forall j :: 0 <= j < i ==> items[j] == WorkoutJson(ids[j], ws[ids[j]])
    {
      items := items + [WorkoutJson(ids[i], ws[ids[i]])];
    }
  }

  /** get_workouts: each of the caller's workouts once, latest session first. */
  method GetWorkouts(db: Db, caller: Option<Id>) returns (r: Response, ghost shown: seq<Id>)
    ensures !UserRoutes.SignedIn(db, caller) ==> r == NotAuthenticated
    ensures UserRoutes.SignedIn(db, caller) ==>
      var me := caller.value;
      && (forall id :: id in shown <==> id in Owned(db.workouts, me))
      && |shown| == |Owned(db.workouts, me)|
      && SortedDesc(shown, DateOf(db.workouts))
      && r.status == 200 && r.body.Arr? && |r.body.items| == |shown|
      && (forall i :: 0 <= i < |shown| ==>
            shown[i] in db.workouts && r.body.items[i] == WorkoutJson(shown[i], db.workouts[shown[i]]))
  {
    shown := [];
    if !UserRoutes.SignedIn(db, caller) {
      return NotAuthenticated, shown;
    }
    var me := caller.value;
    var mine := Owned(db.workouts, me);
    var found := Pick(mine, |mine|);
    var order := SortDesc(found, DateOf(db.workouts));
    SameMembers(order, found);
    assert forall i :: 0 <= i < |order| ==> order[i] in found;
    var items := RenderWorkouts(db.workouts, order);
    shown := order;
    r := Response(200, Arr(items));
  }

  /** add_workout: the body as sent, owned by the caller. */
  method AddWorkout(db: Db, caller: Option<Id>, body: WorkoutBody, now: Instant, newId: Id) returns (r: Response)
    requires newId !in db.workouts
    modifies db`workouts
    ensures !old(UserRoutes.SignedIn(db, caller)) ==> r == NotAuthenticated && db.workouts == old(db.workouts)
    ensures old(UserRoutes.SignedIn(db, caller)) ==>
      && db.workouts == old(db.workouts)[newId := Workout(body, caller.value, now)]
      && r == Response(200, WorkoutJson(newId, Workout(body, caller.value, now)))
      && Owned(db.workouts, caller.value) == Owned(old(db.workouts), caller.value) + {newId}
  {
    if !UserRoutes.SignedIn(db, caller) {
      return NotAuthenticated;
    }
    var w := Workout(body, caller.value, now);
    db.workouts := db.workouts[newId := w];
    r := Response(200, WorkoutJson(newId, w));
  }

  /** get_workout. */
  method GetWorkout(db: Db, caller: Option<Id>, workoutId: string) returns (r: Response)
    ensures !UserRoutes.SignedIn(db, caller) ==> r == NotAuthenticated
    ensures UserRoutes.SignedIn(db, caller) && ParseObjectId(workoutId).None? ==>
      r == Response(500, ErrorBody(GymRoutes.InvalidIdText(workoutId)))
    ensures UserRoutes.SignedIn(db, caller) && ParseObjectId(workoutId).Some? ==>
      var id := Lower(workoutId);
      && (!OwnsWorkout(db.workouts, caller.value, id) ==> r == WorkoutNotFound)
      && (OwnsWorkout(db.workouts, caller.value, id) ==> r == Response(200, WorkoutJson(id, db.workouts[id])))
  {
    if !UserRoutes.SignedIn(db, caller) {
      return NotAuthenticated;
    }
    var oid := ParseObjectId(workoutId);
    if oid.None? {
      return Response(500, ErrorBody(GymRoutes.InvalidIdText(workoutId)));
    }
    var id := oid.value.hex;
    if !OwnsWorkout(db.workouts, caller.value, id) {
      return WorkoutNotFound;
    }
    r := Response(200, WorkoutJson(id, db.workouts[id]));
  }

  /** update_workout: the sent fields replace the stored ones; owner and creation time stay. */
  method UpdateWorkout(db: Db, caller: Option<Id>, workoutId: string, body: WorkoutBody) returns (r: Response)
    modifies db`workouts
    ensures !old(UserRoutes.SignedIn(db, caller)) ==> r == NotAuthenticated && db.workouts == old(db.workouts)
    ensures old(UserRoutes.SignedIn(db, caller)) && ParseObjectId(workoutId).None? ==>
      r == Response(400, ErrorBody(GymRoutes.InvalidIdText(workoutId))) && db.workouts == old(db.workouts)
    ensures old(UserRoutes.SignedIn(db, caller)) && ParseObjectId(workoutId).Some? ==>
      var id := Lower(workoutId);
      && (!OwnsWorkout(old(db.workouts), caller.value, id) ==>
            r == WorkoutNotFound && db.workouts == old(db.workouts))
      && (OwnsWorkout(old(db.workouts), caller.value, id) ==>
            && db.workouts == old(db.workouts)[id := old(db.workouts)[id].(body := body)]
            && r == Response(200, WorkoutJson(id, db.workouts[id])))
    ensures old(UserRoutes.SignedIn(db, caller)) ==> OthersUntouched(old(db.workouts), db.workouts, caller.value)
    ensures forall id :: id in db.workouts <==> id in old(db.workouts)
    ensures forall id :: id in db.workouts ==>
      db.workouts[id].userId == old(db.workouts)[id].userId && db.workouts[id].createdAt == old(db.workouts)[id].createdAt
  {
    if !UserRoutes.SignedIn(db, caller) {
      return NotAuthenticated;
    }
    var oid := ParseObjectId(workoutId);
    if oid.None? {
      return Response(400, ErrorBody(GymRoutes.InvalidIdText(workoutId)));
    }
    var id := oid.value.hex;
    if !OwnsWorkout(db.workouts, caller.value, id) {
      return WorkoutNotFound;
    }
    db.workouts := db.workouts[id := db.workouts[id].(body := body)];
    r := Response(200, WorkoutJson(id, db.workouts[id]));
  }

  /** delete_workout. */
  method DeleteWorkout(db: Db, caller: Option<Id>, workoutId: string) returns (r: Response)
    modifies db`workouts
    ensures !old(UserRoutes.SignedIn(db, caller)) ==> r == NotAuthenticated && db.workouts == old(db.workouts)
    ensures old(UserRoutes.SignedIn(db, caller)) && ParseObjectId(workoutId).None? ==>
      r == Response(500, ErrorBody(GymRoutes.InvalidIdText(workoutId))) && db.workouts == old(db.workouts)
    ensures old(UserRoutes.SignedIn(db, caller)) && ParseObjectId(workoutId).Some? ==>
      var id := Lower(workoutId);
      && (!OwnsWorkout(old(db.workouts), caller.value, id) ==>
            r == WorkoutNotFound && db.workouts == old(db.workouts))
      && (OwnsWorkout(old(db.workouts), caller.value, id) ==>
            r == WorkoutDeleted && db.workouts == old(db.workouts) - {id})
    ensures old(UserRoutes.SignedIn(db, caller)) ==> OthersUntouched(old(db.workouts), db.workouts, caller.value)
  {
    if !UserRoutes.SignedIn(db, caller) {
      return NotAuthenticated;
    }
    var oid := ParseObjectId(workoutId);
    if oid.None? {
      return Response(500, ErrorBody(GymRoutes.InvalidIdText(workoutId)));
    }
    var id := oid.value.hex;
    if !OwnsWorkout(db.workouts, caller.value, id) {
      return WorkoutNotFound;
    }
    db.workouts := db.workouts - {id};
    return WorkoutDeleted;
  }
}
