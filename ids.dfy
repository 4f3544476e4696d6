/**
 * Text helpers the handlers rely on: turning a path segment into an ObjectId
 * (`ObjectId(s)` in bson, which accepts 24 hex digits of either case and
 * prints them in lower case), ASCII lower-casing (`str.lower`) and the
 * case-insensitive literal search of `re.compile(re.escape(q), re.IGNORECASE)`.
 */
module Ids {
  import opened Wrappers
  import opened Json

  predicate IsHexDigit(c: char) {
    '0' <= c <= '9' || 'a' <= c <= 'f' || 'A' <= c <= 'F'
  }

  predicate IsLowerHexDigit(c: char) {
    '0' <= c <= '9' || 'a' <= c <= 'f'
  }

  function LowerChar(c: char): char {
    if 'A' <= c <= 'Z' then (c as int + 32) as char else c
  }

  function Lower(s: string): (r: string)
    ensures |r| == |s|
    ensures forall i :: 0 <= i < |s| ==> r[i] == LowerChar(s[i])
  {
    if s == [] then [] else [LowerChar(s[0])] + Lower(s[1..])
  }

  /** Lower-casing twice changes nothing more. */
  lemma LowerIdempotent(s: string)
    ensures Lower(Lower(s)) == Lower(s)
  {
    assert forall i :: 0 <= i < |s| ==> LowerChar(LowerChar(s[i])) == LowerChar(s[i]);
  }

  /** A string `str(ObjectId(...))` can produce: 24 lower-case hex digits. */
  predicate IsCanonical(s: string) {
    |s| == 24 && forall i :: 0 <= i < |s| ==> IsLowerHexDigit(s[i])
  }

  /** `ObjectId(s)` for a string `s`: `None` where bson raises InvalidId. */
  function ParseObjectId(s: string): (r: Option<ObjectId>)
    ensures r.Some? <==> |s| == 24 && forall i :: 0 <= i < |s| ==> IsHexDigit(s[i])
    ensures r.Some? ==> IsCanonical(r.value.hex) && r.value.hex == Lower(s)
  {
    if |s| == 24 && forall i :: 0 <= i < |s| ==> IsHexDigit(s[i]) then Some(ObjectId(Lower(s))) else None
  }

  /** Parsing the printed form of an ObjectId gives that ObjectId back. */
  lemma ParsePrinted(oid: ObjectId)
    requires IsCanonical(oid.hex)
    ensures ParseObjectId(oid.hex) == Some(oid)
  {
    assert Lower(oid.hex) == oid.hex;
  }

  /** `q` occurs in `text` starting at position `i`. */
  predicate OccursAt(q: string, text: string, i: nat) {
    i + |q| <= |text| && text[i..i + |q|] == q
  }

  /** `q` occurs in `text` as a contiguous piece. */
  predicate IsSubstring(q: string, text: string) {
    exists i: nat :: i <= |text| && OccursAt(q, text, i)
  }

  /** What the escaped, case-insensitive gym-name pattern matches. */
  predicate ContainsIgnoringCase(text: string, q: string) {
    IsSubstring(Lower(q), Lower(text))
  }
}
