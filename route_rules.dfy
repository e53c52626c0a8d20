/**
 * The request rules the three routers share: the reply a handler sends, the
 * ordered required-field check, the whitelist that builds a partial update,
 * and the path-id versus body-id check of the PUT handlers.
 */
module RouteRules {
  import opened Wrappers
  import opened Json
  import opened Database

  /** What a handler answers, without the transport details. */
  datatype Response =
    | Created(repr: Object)                     // 201 with the new row's representation
    | Found(repr: Object)                       // 200 with one row's representation
    | Listed(name: string, items: seq<Object>)  // 200 with `{name: items}`
    | NoContent                                 // 204
    | MissingField(field: string)               // 400 "Missing `field` in request body"
    | IdMismatch(pathId: string)                // 400 "Request path id (...) and request body id (...) must match"
    | NoReply                                   // the handler throws or leaves a rejection unhandled: nothing is sent
    | ServerError(fault: Fault)                 // 500

  /** The reply to an update or a delete once the store has answered. */
  function StoreReply(fault: Option<Fault>): Response
  {
    match fault
    case None => NoContent
    case Some(f) => ServerError(f)
  }

  /** Every field of `required` is a key of `body` (its value may still be null). */
  ghost predicate AllPresent(required: seq<string>, body: Object)
  {
    forall i :: 0 <= i < |required| ==> required[i] in body
  }

  /** `f` is the first field of `required` that is not a key of `body`. */
  ghost predicate IsFirstMissing(required: seq<string>, body: Object, f: string)
  {
    exists i :: 0 <= i < |required| && required[i] == f && f !in body
                && forall j :: 0 <= j < i ==> required[j] in body
  }

  /** At most one field is the first missing one. */
  lemma FirstMissingUnique(required: seq<string>, body: Object, f: string, g: string)
    requires IsFirstMissing(required, body, f) && IsFirstMissing(required, body, g)
    ensures f == g
  {
    var i :| 0 <= i < |required| && required[i] == f && f !in body
             && forall j :: 0 <= j < i ==> required[j] in body;
    var k :| 0 <= k < |required| && required[k] == g && g !in body
             && forall j :: 0 <= j < k ==> required[j] in body;
    assert i == k;
  }

  /** The required-field loop with its early return: the first field of `required` missing from `body`. */
  method CheckRequired(required: seq<string>, body: Object) returns (missing: Option<string>)
    ensures missing.None? <==> AllPresent(required, body)
    ensures missing.Some? ==> IsFirstMissing(required, body, missing.value)
    ensures forall f :: IsFirstMissing(required, body, f) ==> missing == Some(f)
  {
    for i := 0 to |required|
      invariant forall j :: 0 <= j < i ==> required[j] in body
    {
      if required[i] !in body {
        missing := Some(required[i]);
        assert IsFirstMissing(required, body, required[i]);
        forall f | IsFirstMissing(required, body, f) ensures f == required[i] {
          FirstMissingUnique(required, body, f, required[i]);
        }
        return;
      }
    }
    return None;
  }

  /** The `toUpdate` loop: the fields of `updatable` present in `body`, each with the body's value. */
  method BuildUpdate(updatable: seq<string>, body: Object) returns (toUpdate: Object)
    ensures toUpdate.Keys == (set f | f in updatable && f in body)
    ensures forall f :: f in toUpdate ==> toUpdate[f] == body[f]
  {
    toUpdate := map[];
    for i := 0 to |updatable|
      invariant toUpdate.Keys == (set f | f in updatable[..i] && f in body)
      invariant forall f :: f in toUpdate ==> f in body && toUpdate[f] == body[f]
    {
      var f := updatable[i];
      assert updatable[..i + 1] == updatable[..i] + [f];
      if f in body {
        toUpdate := toUpdate[f := body[f]];
      }
    }
    assert updatable[..|updatable|] == updatable;
  }

  /**
   * The PUT handlers' check `req.params.id && req.body.id && req.params.id === req.body.id.toString()`.
   * The path-id test is implied by the others: a truthy body id never writes as the empty string.
   */
  predicate IdsMatch(pathId: string, body: Object)
    ensures IdsMatch(pathId, body) <==> "id" in body && Truthy(body["id"]) && pathId == ToJsString(body["id"])
  {
    pathId != "" && "id" in body && Truthy(body["id"]) && pathId == ToJsString(body["id"])
  }

  /** When the check passes, the body's id and the path id name the same row. */
  lemma IdsMatchNameSameRow(pathId: string, body: Object)
    requires IdsMatch(pathId, body)
    ensures KeyOf(body["id"]) == ParseId(pathId)
  {
    match body["id"]
    case Num(n) =>
      NumberKeyRoundTrip(n);
    case Bool(b) =>
      assert !IsDigit(pathId[0]) && pathId[0] != '-';
    case Str(_) =>
  }

  /**
   * A body that repeats an id as a non-zero number passes the check against
   * that id's numeral, which the store reads as the same key when it is in range.
   */
  lemma IdsMatchNumericId(n: int, body: Object)
    requires n != 0 && "id" in body && body["id"] == Num(n)
    ensures IdsMatch(ToJsString(Num(n)), body)
    ensures InKeyRange(n) ==> ParseId(ToJsString(Num(n))) == Some(n)
    ensures !InKeyRange(n) ==> ParseId(ToJsString(Num(n))) == None
  {
    NumberKeyRoundTrip(n);
  }

  /** The check compares strings, not keys: a path id with a leading zero names row 7 but fails against id 7. */
  lemma IdsMatchIsTextual()
    ensures ParseId("07") == Some(7)
    ensures !IdsMatch("07", map["id" := Num(7)])
  {
    assert "07"[..1] == "0" && "0"[..0] == "";
    assert AllDigits("07") by { assert IsDigit("07"[0]) && IsDigit("07"[1]); }
    assert ToJsString(Num(7)) == "7";
  }
}
