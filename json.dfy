/**
 * JSON-like values: a decoded request body, a MongoDB document or a response
 * body before `jsonify`, together with the converter that makes a MongoDB
 * document JSON-safe (backend/app/routes/auth.py, json_serialize_mongodb).
 */
module Json {

  /** A point in time, in microseconds (the resolution of Python's datetime). */
  type Instant = int

  /** A BSON ObjectId, represented by its 24-digit lower-case hex string (`str(oid)`). */
  datatype ObjectId = ObjectId(hex: string)

  datatype Value =
    | Null
    | Bool(b: bool)
    | Int(i: int)
    | Str(s: string)
    | Oid(id: ObjectId)
    | Date(t: Instant)
    | Obj(fields: map<string, Value>)
    | Arr(items: seq<Value>)

  /** An HTTP reply as the handlers build it: `jsonify(body), status`. */
  datatype Response = Response(status: int, body: Value)

  function ErrorBody(msg: string): Value {
    Obj(map["error" := Str(msg)])
  }

  function MessageBody(msg: string): Value {
    Obj(map["message" := Str(msg)])
  }

  /** Python truthiness (`if x:`) of a decoded value. */
  predicate Truthy(v: Value) {
    match v
    case Null => false
    case Bool(b) => b
    case Int(i) => i != 0
    case Str(s) => s != ""
    case Obj(m) => |m| != 0
    case Arr(xs) => |xs| != 0
    case _ => true
  }

  /** Nothing inside `v` is an ObjectId or a datetime: what `json.dumps` accepts. */
  predicate Plain(v: Value) {
    match v
    case Oid(_) => false
    case Date(_) => false
    case Obj(m) => forall k :: k in m ==> Plain(m[k])
    case Arr(xs) => forall i :: 0 <= i < |xs| ==> Plain(xs[i])
    case _ => true
  }

  /**
   * json_serialize_mongodb: ObjectId becomes its string, datetime its ISO text
   * (`iso` stands for `datetime.isoformat`), dicts and lists are converted
   * entry by entry, and everything else is returned as it is.
   */
  function Serialize(v: Value, iso: Instant -> string): (r: Value)
    ensures Plain(r)
    ensures v.Oid? ==> r == Str(v.id.hex)
    ensures v.Date? ==> r == Str(iso(v.t))
    ensures (v.Null? || v.Bool? || v.Int? || v.Str?) ==> r == v
    ensures v.Obj? <==> r.Obj?
    ensures v.Obj? ==> r.fields.Keys == v.fields.Keys
    ensures v.Arr? <==> r.Arr?
    ensures v.Arr? ==> |r.items| == |v.items|
  {
    match v
    case Oid(id) => Str(id.hex)
    case Date(t) => Str(iso(t))
    case Obj(m) => Obj(map k | k in m :: Serialize(m[k], iso))
    case Arr(xs) => Arr(seq(|xs|, i requires 0 <= i < |xs| => Serialize(xs[i], iso)))
    case _ => v
  }

  /** Each dict value and each list item is converted on its own. */
  lemma SerializeEntries(v: Value, iso: Instant -> string)
    ensures v.Obj? ==> forall k :: k in v.fields ==> Serialize(v, iso).fields[k] == Serialize(v.fields[k], iso)
    ensures v.Arr? ==> forall i :: 0 <= i < |v.items| ==> Serialize(v, iso).items[i] == Serialize(v.items[i], iso)
  {
  }

  /** A value that is already JSON-safe is left exactly as it is. */
  lemma {:induction false} SerializePlain(v: Value, iso: Instant -> string)
    requires Plain(v)
    ensures Serialize(v, iso) == v
  {
    match v
    case Obj(m) =>
      forall k | k in m ensures Serialize(m[k], iso) == m[k] {
        SerializePlain(m[k], iso);
      }
      assert Serialize(v, iso).fields == m;
    case Arr(xs) =>
      forall i | 0 <= i < |xs| ensures Serialize(xs[i], iso) == xs[i] {
        SerializePlain(xs[i], iso);
      }
      assert Serialize(v, iso).items == xs;
    case _ =>
  }

  /** Applying the converter twice is the same as applying it once. */
  lemma SerializeIdempotent(v: Value, iso: Instant -> string)
    ensures Serialize(Serialize(v, iso), iso) == Serialize(v, iso)
  {
    SerializePlain(Serialize(v, iso), iso);
  }
}
