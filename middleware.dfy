/**
 * backend/app/middleware/auth_middleware.py: the bearer-header gate
 * (`login_required`), the token part of `get_current_user`, password
 * checking and token claims. JWT encoding and decoding and password hashing
 * are library calls; they are parameters here (`verify` is `verify_token`:
 * the decoded payload, or `None` when PyJWT raises).
 */
module Middleware {
  import opened Wrappers
  import opened Json
  import opened Ids

  const AccessTokenExpireMinutes: int := 60 * 24
  const MicrosPerMinute: int := 60 * 1000000
  const BearerPrefix: string := "Bearer "

  /** verify_password: an empty stored hash never matches; otherwise the library decides. */
  function VerifyPassword(check: (string, string) -> bool, plain: string, hashed: string): (ok: bool)
    ensures hashed == "" ==> !ok
    ensures hashed != "" ==> (ok <==> check(hashed, plain))
  {
    if hashed == "" then false else check(hashed, plain)
  }

  /** create_access_token: a copy of `data` with `exp` set one day after `now`. */
  function CreateAccessToken(data: map<string, Value>, now: Instant): (claims: map<string, Value>)
    ensures claims.Keys == data.Keys + {"exp"}
    ensures claims["exp"] == Date(now + 1440 * MicrosPerMinute)
    ensures forall k :: k in data && k != "exp" ==> claims[k] == data[k]
  {
    data["exp" := Date(now + AccessTokenExpireMinutes * MicrosPerMinute)]
  }

  /** The inverse of `Split`: the parts glued back together with single spaces. */
  function Join(parts: seq<string>): string
    requires |parts| >= 1
    decreases |parts|
  {
    if |parts| == 1 then parts[0] else parts[0] + " " + Join(parts[1..])
  }

  /** Python's `s.split(' ')`: the pieces between single spaces, empty ones included. */
  function Split(s: string): (parts: seq<string>)
    ensures |parts| >= 1
    ensures forall i :: 0 <= i < |parts| ==> ' ' !in parts[i]
    ensures Join(parts) == s
    ensures parts[0] <= s && (|parts[0]| == |s| || s[|parts[0]|] == ' ')
    ensures ' ' in s ==> |parts| >= 2
    decreases |s|
  {
    if s == [] then [""]
    else
      var rest := Split(s[1..]);
      assert s == [s[0]] + s[1..];
      if s[0] == ' ' then
        assert ([""] + rest)[1..] == rest;
        [""] + rest
      else
        var parts := [[s[0]] + rest[0]] + rest[1..];
        assert parts[1..] == rest[1..];
        assert ' ' in s ==> ' ' in s[1..];
        parts
  }

  /** The token of a header: its second space-separated piece, if it starts with "Bearer ". */
  function BearerToken(header: Option<string>): (token: Option<string>)
    ensures token.Some? <==> header.Some? && |header.value| >= 7 && header.value[..7] == BearerPrefix
    ensures token.Some? ==>
      var rest := header.value[7..];
      && ' ' !in token.value
      && token.value <= rest
      && (|token.value| == |rest| || rest[|token.value|] == ' ')
  {
    if header.None? || header.value == "" || !(|header.value| >= 7 && header.value[..7] == BearerPrefix) then None
    else
      var h := header.value;
      var parts := Split(h);
      assert h[6] == ' ';
      assert |parts[0]| == 6 by {
        assert forall i :: 0 <= i < 6 ==> h[i] != ' ';
      }
      SplitTail(h, parts);
      Some(parts[1])
  }

  /** Removing the first piece of a split leaves the split of what follows the first space. */
  lemma SplitTail(s: string, parts: seq<string>)
    requires parts == Split(s) && |parts| >= 2
    ensures |parts[0]| < |s| && Split(s[|parts[0]| + 1..]) == parts[1..]
    decreases |s|
  {
    assert s != [];
    var rest := Split(s[1..]);
    if s[0] == ' ' {
      assert parts == [""] + rest;
      assert parts[1..] == rest;
    } else {
      assert parts == [[s[0]] + rest[0]] + rest[1..];
      assert |rest| == |parts|;
      SplitTail(s[1..], rest);
      assert |parts[0]| == |rest[0]| + 1;
      assert s[|parts[0]| + 1..] == s[1..][|rest[0]| + 1..];
    }
  }

  /** A header "Bearer t" with no further space carries the token t. */
  lemma BearerTokenOf(t: string)
    requires ' ' !in t
    ensures BearerToken(Some(BearerPrefix + t)) == Some(t)
  {
    var h := BearerPrefix + t;
    assert h[..7] == BearerPrefix;
    assert h[7..] == t;
    var tok := BearerToken(Some(h)).value;
    assert tok <= t;
    assert |tok| == |t|;
    assert tok == t[..|tok|] == t;
  }

  /** `if not payload`: verification failed or gave an empty payload. */
  predicate ValidPayload(payload: Option<map<string, Value>>) {
    payload.Some? && |payload.value| != 0
  }

  datatype Gate = Proceed | Reject(response: Response)

  const NoTokenReply: Response := Response(401, ErrorBody("No authorization token provided"))
  const BadTokenReply: Response := Response(401, ErrorBody("Invalid or expired token"))

  /** The checks `login_required` makes before it calls the wrapped handler. */
  function LoginRequired(header: Option<string>, verify: string -> Option<map<string, Value>>): (g: Gate)
    ensures BearerToken(header).None? ==> g == Reject(NoTokenReply)
    ensures BearerToken(header).Some? ==>
      g == (if ValidPayload(verify(BearerToken(header).value)) then Proceed else Reject(BadTokenReply))
  {
    match BearerToken(header)
    case None => Reject(NoTokenReply)
    case Some(token) => if ValidPayload(verify(token)) then Proceed else Reject(BadTokenReply)
  }

  /** A handler behind `@login_required`: it runs, with its own arguments, only when the gate lets it. */
  function WithLogin<A>(header: Option<string>, verify: string -> Option<map<string, Value>>,
                        handler: A -> Response, args: A): (r: Response)
    ensures LoginRequired(header, verify) == Proceed ==> r == handler(args)
    ensures LoginRequired(header, verify) != Proceed ==> r.status == 401 && r == LoginRequired(header, verify).response
  {
    match LoginRequired(header, verify)
    case Proceed => handler(args)
    case Reject(reply) => reply
  }

  /**
   * The part of `get_current_user` before the database lookup: the canonical
   * user id named by the token's `sub`, or `None` for a malformed header, an
   * invalid payload, a missing or empty `sub`, or a `sub` that `ObjectId()`
   * rejects. (A JWT payload is JSON, so `sub` is never an ObjectId already.)
   */
  function TokenSubject(header: Option<string>, verify: string -> Option<map<string, Value>>): (id: Option<string>)
    ensures id.Some? <==>
      && BearerToken(header).Some?
      && var payload := verify(BearerToken(header).value);
      && ValidPayload(payload)
      && "sub" in payload.value && payload.value["sub"].Str?
      && ParseObjectId(payload.value["sub"].s).Some?
    ensures id.Some? ==> id.value == Lower(verify(BearerToken(header).value).value["sub"].s)
    ensures id.Some? ==> IsCanonical(id.value)
    ensures id.Some? ==> LoginRequired(header, verify) == Proceed
  {
    match BearerToken(header)
    case None => None
    case Some(token) =>
      var payload := verify(token);
      if !ValidPayload(payload) then None
      else
        var sub := if "sub" in payload.value then payload.value["sub"] else Null;
        if !Truthy(sub) then None
        else if !sub.Str? then None
        else match ParseObjectId(sub.s)
          case None => None
          case Some(oid) => Some(oid.hex)
  }

  /** The gate only checks the token: a valid token without `sub` passes it, yet names no user. */
  lemma GateDoesNotCheckUser()
    ensures var verify := (t: string) => Some(map["exp" := Int(0)]);
      LoginRequired(Some("Bearer abc"), verify) == Proceed && TokenSubject(Some("Bearer abc"), verify).None?
  {
    BearerTokenOf("abc");
  }
}
