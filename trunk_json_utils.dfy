/**
 * `JsonUtils.validateRpcRequest` of the trunk line: the JSON-RPC 2.0
 * request check, reported as the trunk's own `JsonParseException`.
 */
module TrunkJsonUtils {
  import opened Common
  import opened JsonTree
  import opened Failures
  import opened RequestValidation

  /** The node itself when it is a valid request; otherwise the first failed check, in the order object, version, method. */
  function ValidateRpcRequest(node: Option<Json>): (r: Result<Json>)
    ensures r.Ok? <==> node.Some? && IsValidRequest(node.value)
    ensures r.Ok? ==> r.value == node.value
    ensures r.Err? ==> r.thrown == JsonParseException(Some(Message(FirstViolation(node).value)))
  {
    match FirstViolation(node)
    case Some(v) => Err(JsonParseException(Some(Message(v))))
    case None => Ok(node.value)
  }

  /** A wrong or missing version is reported even when the method name is wrong too. */
  lemma VersionReportedFirst(fields: map<string, Json>)
    requires "jsonrpc" !in fields || fields["jsonrpc"] != JStr("2.0")
    ensures ValidateRpcRequest(Some(JObj(fields))) == Err(JsonParseException(Some("\"jsonrpc\" attribute not \"2.0\" or not found")))
  {
  }

  /** An object with the version "2.0" and a method name that is not blank passes, whatever else it holds. */
  lemma WellFormedPasses(fields: map<string, Json>, name: string)
    requires fields["jsonrpc" := JStr("2.0")]["method" := JStr(name)] == fields
    requires !IsBlank(name)
    ensures ValidateRpcRequest(Some(JObj(fields))) == Ok(JObj(fields))
  {
    assert Get(JObj(fields), "jsonrpc") == Some(JStr("2.0"));
    assert Get(JObj(fields), "method") == Some(JStr(name));
  }
}
