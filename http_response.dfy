/** The API's response builders (core/internal/adapters/inbound/http/
    validator.go): a status, the headers set and the JSON value encoded as the
    body. The byte encoding of JSON is not modelled. */
module HttpResponse {
  import opened Wrappers
  import opened FieldErrors

  /** JSON values as Go encodes them. A Go `map[string]string` is kept as a
      map; the key order the encoder writes is not modelled. */
  datatype Json =
    | JNull
    | JBool(b: bool)
    | JInt(i: int)
    | JReal(r: real)
    | JString(s: string)
    | JStringMap(entries: map<string, string>)
    | JArray(elems: seq<Json>)
    | JObject(fields: seq<Member>)

  datatype Member = Member(key: string, value: Json)

  datatype Response = Response(Status: int, Headers: map<string, string>, Body: Json)

  const StatusOK := 200
  const StatusCreated := 201
  const StatusBadRequest := 400

  const JsonHeaders: map<string, string> := map["Content-Type" := "application/json"]

  /** The value of the first member named `key` of an object. */
  function Lookup(body: Json, key: string): Option<Json> {
    if !body.JObject? then None else LookupIn(body.fields, key)
  }

  function LookupIn(fields: seq<Member>, key: string): Option<Json> {
    if |fields| == 0 then None
    else if fields[0].key == key then Some(fields[0].value)
    else LookupIn(fields[1..], key)
  }

  /** The names of an object's members, in order. */
  function Keys(body: Json): seq<string> {
    if !body.JObject? then [] else seq(|body.fields|, i requires 0 <= i < |body.fields| => body.fields[i].key)
  }

  /** `RespondJSON`: the payload wrapped as `{"data": payload}`. */
  function RespondJSON(status: int, data: Json): Response {
    Response(status, JsonHeaders, JObject([Member("data", data)]))
  }

  /** `RespondError`: `{"error": message, "details": details}`, the details
      left out when nil or empty (`omitempty`). */
  function RespondError(status: int, message: string, details: Option<map<string, string>>): Response {
    var tail := if details.Some? && |details.value| > 0 then [Member("details", JStringMap(details.value))] else [];
    Response(status, JsonHeaders, JObject([Member("error", JString(message))] + tail))
  }

  /** What a client reads back from a success response: the status, the JSON
      content type, and exactly the one member `data` holding the payload. */
  lemma RespondJSONReadsBack(status: int, data: Json)
    ensures var r := RespondJSON(status, data);
            && r.Status == status
            && "Content-Type" in r.Headers && r.Headers["Content-Type"] == "application/json"
            && Keys(r.Body) == ["data"]
            && Lookup(r.Body, "data") == Some(data)
  {
  }

  /** What a client reads back from an error response: the status, the JSON
      content type, the message under `error`, and the details under
      `details` exactly when they are non-nil and non-empty. */
  lemma RespondErrorReadsBack(status: int, message: string, details: Option<map<string, string>>)
    ensures var r := RespondError(status, message, details);
            && r.Status == status
            && "Content-Type" in r.Headers && r.Headers["Content-Type"] == "application/json"
            && Lookup(r.Body, "error") == Some(JString(message))
            && (Lookup(r.Body, "details").Some? <==> details.Some? && |details.value| > 0)
            && (Lookup(r.Body, "details").Some? ==> Lookup(r.Body, "details") == Some(JStringMap(details.value)))
            && Keys(r.Body) == if details.Some? && |details.value| > 0 then ["error", "details"] else ["error"]
  {
    var r := RespondError(status, message, details);
    assert "details" != "error";
    assert LookupIn(r.Body.fields, "details") == LookupIn(r.Body.fields[1..], "details");
    if details.Some? && |details.value| > 0 {
      assert r.Body.fields[1..] == [Member("details", JStringMap(details.value))];
    } else {
      assert r.Body.fields[1..] == [];
    }
  }

  /** `RespondValidationError`: always 400 "Validation failed". For a
      validation-error list the details map each failing field to the
      library's own text of its last error (a loop over the list); for any
      other error there are no details. */
  method RespondValidationError(err: Error) returns (r: Response)
    ensures r == RespondError(StatusBadRequest, "Validation failed",
                              if err.ValidationErrorList? then Some(Details(err.errs, ErrorText)) else None)
  {
    if err.ValidationErrorList? {
      var errs := err.errs;
      var details: map<string, string> := map[];
      for i := 0 to |errs|
        invariant details == Details(errs[..i], ErrorText)
      {
        assert errs[..i + 1][..i] == errs[..i];
        details := details[errs[i].Field := ErrorText(errs[i])];
      }
      assert errs[..|errs|] == errs;
      r := RespondError(StatusBadRequest, "Validation failed", Some(details));
      return;
    }
    r := RespondError(StatusBadRequest, "Validation failed", None);
  }

  /** The response to a validation error is a 400 carrying "Validation
      failed", and its details, when present, name exactly the failing
      fields; an error that is not a validation-error list, or an empty list,
      gives no details. */
  lemma ValidationErrorResponse(err: Error)
    ensures var r := RespondError(StatusBadRequest, "Validation failed",
                                  if err.ValidationErrorList? then Some(Details(err.errs, ErrorText)) else None);
            && r.Status == 400
            && Lookup(r.Body, "error") == Some(JString("Validation failed"))
            && (Lookup(r.Body, "details").Some? <==> err.ValidationErrorList? && |err.errs| > 0)
            && (Lookup(r.Body, "details").Some? ==>
                  && Lookup(r.Body, "details").value.JStringMap?
                  && forall k :: k in Lookup(r.Body, "details").value.entries
                              <==> exists i :: 0 <= i < |err.errs| && err.errs[i].Field == k)
  {
    var details := if err.ValidationErrorList? then Some(Details(err.errs, ErrorText)) else None;
    RespondErrorReadsBack(StatusBadRequest, "Validation failed", details);
    if err.ValidationErrorList? {
      DetailsKeys(err.errs, ErrorText);
      if |err.errs| > 0 {
        assert err.errs[0].Field in details.value;
      }
    }
  }
}
