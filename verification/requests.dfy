/** Assembly of the request descriptor handed to `fetch` (script.js, `_createRequest`). */
module Requests {
  import opened Wrappers
  import opened Js

  const ContentType := "content-type"
  const Json := "application/json"

  /**
   A request descriptor. The body is the data value itself: its JSON text is
   not modelled.
   */
  datatype Request = Request(verb: string, headers: Props, body: Option<Value>)

  /** The headers every request starts from: a single JSON content type. */
  function JsonOnly(): (h: Props)
    ensures forall k :: Lookup(h, k) == if k == ContentType then Some(Json) else None
  {
    var h := [(ContentType, Json)];
    assert h[1..] == [];
    assert DistinctKeys(h);
    h
  }

  /**
   `_createRequest(verb, data, headers)`. `headers` is `None` when the caller
   passes `undefined`. The four branches of the source are kept as written.
   */
  function CreateRequest(verb: string, data: Value, headers: Option<Props>): (r: Request)
    ensures r.verb == verb
    ensures |r.headers| > 0 && r.headers[0].0 == ContentType
    // caller headers are spread in after the content type, so they win on a clash
    ensures forall k :: headers.Some? && HasKey(headers.value, k) ==>
      Lookup(r.headers, k) == Lookup(headers.value, k)
    ensures headers.None? || !HasKey(headers.value, ContentType) ==>
      Lookup(r.headers, ContentType) == Some(Json)
    ensures forall k :: k != ContentType && (headers.None? || !HasKey(headers.value, k)) ==>
      !HasKey(r.headers, k)
    ensures r.body.Some? <==> Truthy(data)
    ensures r.body.Some? ==> r.body.value == data
  {
    if !Truthy(data) && headers.None? then
      Request(verb, JsonOnly(), None)
    else if !Truthy(data) then
      Request(verb, Spread(JsonOnly(), headers.value), None)
    else if headers.None? then
      Request(verb, JsonOnly(), Some(data))
    else
      Request(verb, Spread(JsonOnly(), headers.value), Some(data))
  }

  /**
   The four branches amount to one rule: spread the caller's headers (an absent
   object spreads nothing) over the JSON content type, and attach the data as
   the body exactly when it is truthy.
   */
  lemma {:induction false} BranchesAgree(verb: string, data: Value, headers: Option<Props>)
    ensures CreateRequest(verb, data, headers) ==
      Request(verb, Spread(JsonOnly(), if headers.Some? then headers.value else []),
              if Truthy(data) then Some(data) else None)
  {
    if headers.None? {
      assert Spread(JsonOnly(), []) == JsonOnly();
    }
  }
}
