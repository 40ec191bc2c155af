/**
 * The parts of the trunk's `JacksonJsonEngine` that differ from the later
 * engine: `isNotification`, which reads the id member without checking
 * that it is there, and `writeJson`, which refuses an object that is not
 * a valid request before writing it.  Validation and the request
 * accessors are the same code as the later engine's.
 */
module TrunkJacksonEngine {
  import opened Common
  import opened JsonTree
  import opened Failures
  import opened RequestValidation
  import JacksonEngine
  import Server = JsonRpcServer

  /** `isNotification` as written: false for a non-object; a missing id member is dereferenced. */
  function IsNotification(json: Json): (r: Result<bool>)
    ensures !json.JObj? ==> r == Ok(false)
    ensures json.JObj? && "id" !in json.fields ==> r == Err(NullPointer())
    ensures json.JObj? && "id" in json.fields ==> r == Ok(json.fields["id"] == JNull)
  {
    match json
    case JObj(fields) => if "id" in fields then Ok(fields["id"].JNull?) else Err(NullPointer())
    case _ => Ok(false)
  }

  /**
   * A request without an id, a notification in JSON-RPC 2.0, makes the
   * written test throw; wherever it answers, it agrees with the later
   * engine's test, which also accepts a missing id.
   */
  lemma NotificationWithoutIdThrows(fields: map<string, Json>)
    requires "id" !in fields
    ensures IsNotification(JObj(fields)) == Err(NullPointer())
    ensures JacksonEngine.IsNotification(JObj(fields))
  {
  }

  lemma AgreesWhereDefined(json: Json)
    requires IsNotification(json).Ok?
    ensures IsNotification(json).value == JacksonEngine.IsNotification(json)
  {
  }

  /** What `writeJson` does with a value: None stands for anything that is not a `JsonNode`. */
  function WriteCheck(json: Option<Json>): (r: Result<Json>)
    ensures r.Ok? <==> json.Some? && (json.value.JObj? ==> IsValidRequest(json.value))
    ensures r.Ok? ==> r.value == json.value
    ensures json.None? ==> r == Err(JsonException(Some(JacksonEngine.NotAJsonNode)))
    ensures json.Some? && r.Err? ==> r == JacksonEngine.ValidateRpcRequest(json)
  {
    match json
    case None => Err(JsonException(Some(JacksonEngine.NotAJsonNode)))
    case Some(node) => if node.JObj? then JacksonEngine.ValidateRpcRequest(json) else Ok(node)
  }

  /** A response object, which has no method member, cannot be written by this engine. */
  lemma ResponseRefused(fields: map<string, Json>)
    requires "method" !in fields
    ensures WriteCheck(Some(JObj(fields))).Err?
  {
  }

  /** `writeJson`: the tree goes to `out` only after it passes the check; nothing is written otherwise. */
  method WriteJson(json: Option<Json>, out: Server.JsonSink) returns (r: Result<Json>)
    modifies out
    ensures r == WriteCheck(json)
    ensures r.Ok? ==> out.written == old(out.written) + [json.value]
    ensures r.Err? ==> out.written == old(out.written)
  {
    if json.None? {
      return Err(JsonException(Some(JacksonEngine.NotAJsonNode)));
    } else if json.value.JObj? {
      var checked := JacksonEngine.ValidateRpcRequest(json);
      if checked.Err? {
        return checked;
      }
    }
    out.Write(json.value);
    return Ok(json.value);
  }
}
