/** The `requireFields` middleware of backend/src/middleware/validate.js. */
module Validate {

  /** A JSON value of a request body. */
  datatype Json = Null | Bool(b: bool) | Number(n: int) | Text(s: string) | Array(items: seq<Json>) | Object(fields: map<string, Json>)

  /** A parsed request body; a key that is not in the map is `undefined`. */
  type Body = map<string, Json>

  /** A field is missing when it is undefined, null or the empty string; `0` and `false` are present. */
  predicate IsMissing(body: Body, field: string)
  {
    field !in body || body[field] == Null || body[field] == Text("")
  }

  datatype Gate = Next | Reject(status: int, message: string)

  /**
   * Walks the field list in order and rejects with 400 at the first missing field;
   * when none is missing the request passes on to the next handler.
   */
  method RequireFields(fields: seq<string>, body: Body) returns (g: Gate)
    ensures g.Next? <==> forall k :: 0 <= k < |fields| ==> !IsMissing(body, fields[k])
    ensures g.Reject? ==> g.status == 400 && exists i :: FirstMissingAt(fields, body, i) && g.message == fields[i] + " is required"
  {
    for i := 0 to |fields|
      invariant forall k :: 0 <= k < i ==> !IsMissing(body, fields[k])
    {
      if IsMissing(body, fields[i]) {
        assert FirstMissingAt(fields, body, i);
        return Reject(400, fields[i] + " is required");
      }
    }
    return Next;
  }

  /** `fields[i]` is missing and every field listed before it is present. */
  predicate FirstMissingAt(fields: seq<string>, body: Body, i: int)
  {
    && 0 <= i < |fields| && IsMissing(body, fields[i])
    && forall k :: 0 <= k < i ==> !IsMissing(body, fields[k])
  }
}
