/** The request body of the message endpoint and its schema, `SendMessageValidator`
    (src/lib/validators/SendMesssageValidator.ts): an object whose `fileId` and `message`
    are strings. */
module SendMessageValidator {
  import opened Wrappers

  /** A parsed JSON value. Numbers are kept as integers; their value plays no part here. */
  datatype Json =
    | JNull
    | JBool(b: bool)
    | JNumber(n: int)
    | JString(s: string)
    | JArray(items: seq<Json>)
    | JObject(fields: map<string, Json>)

  datatype SendMessage = SendMessage(fileId: string, message: string)

  /** One zod issue: the body is not an object, or a field is missing or not a string. */
  datatype ZodIssue = ExpectedObject | ExpectedString(field: string)

  /** `z.string()` applied to the object's field `name`; a missing field fails too. */
  predicate IsStringField(fields: map<string, Json>, name: string) {
    name in fields && fields[name].JString?
  }

  /** The issues `z.object({ fileId: z.string(), message: z.string() })` reports for the
      fields of an object, in schema order. */
  function FieldIssues(fields: map<string, Json>): (issues: seq<ZodIssue>)
    ensures ExpectedString("fileId") in issues <==> !IsStringField(fields, "fileId")
    ensures ExpectedString("message") in issues <==> !IsStringField(fields, "message")
    ensures forall i :: i in issues ==> i == ExpectedString("fileId") || i == ExpectedString("message")
  {
    (if IsStringField(fields, "fileId") then [] else [ExpectedString("fileId")])
    + (if IsStringField(fields, "message") then [] else [ExpectedString("message")])
  }

  /** `SendMessageValidator.parse(body)`: the two strings, or the ZodError's issues. Keys
      other than the two are stripped; no length is required of either string. */
  function Parse(body: Json): (r: Result<SendMessage, seq<ZodIssue>>)
    ensures r.Ok? <==> body.JObject? && IsStringField(body.fields, "fileId") && IsStringField(body.fields, "message")
    ensures r.Ok? ==> r.value.fileId == body.fields["fileId"].s && r.value.message == body.fields["message"].s
    ensures r.Err? ==> |r.error| > 0
    ensures !body.JObject? ==> r == Err([ExpectedObject])
    ensures body.JObject? && r.Err? ==>
      && (ExpectedString("fileId") in r.error <==> !IsStringField(body.fields, "fileId"))
      && (ExpectedString("message") in r.error <==> !IsStringField(body.fields, "message"))
  {
    match body
    case JObject(fields) =>
      var issues := FieldIssues(fields);
      if issues == [] then Ok(SendMessage(fields["fileId"].s, fields["message"].s))
      else Err(issues)
    case _ => Err([ExpectedObject])
  }

  /** `JSON.stringify({ fileId, message })`, the body the chat client sends. */
  function Encode(m: SendMessage): (body: Json)
    ensures body.JObject? && body.fields.Keys == {"fileId", "message"}
  {
    JObject(map["fileId" := JString(m.fileId), "message" := JString(m.message)])
  }

  /** The client's body always passes the schema and parses back to what was sent,
      including empty strings. */
  lemma ParseEncode(m: SendMessage)
    ensures Parse(Encode(m)) == Ok(m)
  {
    var fields := Encode(m).fields;
    assert fields["fileId"] == JString(m.fileId);
    assert fields["message"] == JString(m.message);
  }

  /** Keys outside the schema make no difference to the outcome. */
  lemma ParseIgnoresOtherKeys(fields: map<string, Json>, extra: map<string, Json>)
    requires "fileId" !in extra && "message" !in extra
    ensures Parse(JObject(extra + fields)) == Parse(JObject(fields))
  {
    var all := extra + fields;
    assert IsStringField(all, "fileId") == IsStringField(fields, "fileId");
    assert IsStringField(all, "message") == IsStringField(fields, "message");
    if IsStringField(fields, "fileId") { assert all["fileId"] == fields["fileId"]; }
    if IsStringField(fields, "message") { assert all["message"] == fields["message"]; }
  }
}
