/**
 * The JSON-RPC 2.0 request check shared by both Jackson engines and the
 * trunk's `JsonUtils`: the node must be an object whose "jsonrpc" member
 * is the text "2.0" and whose "method" member is text that is not blank
 * after trimming; the version is checked before the method.
 */
module RequestValidation {
  import opened Common
  import opened JsonTree

  /** The check that fails first. */
  datatype Violation = NotAnObject | BadVersion | BadMethod

  function Message(v: Violation): string
  {
    match v
    case NotAnObject => "Source is not an ObjectNode"
    case BadVersion => "\"jsonrpc\" attribute not \"2.0\" or not found"
    case BadMethod => "\"method\" attribute empty or not found"
  }

  predicate HasVersion(node: Json)
  {
    Get(node, "jsonrpc") == Some(JStr("2.0"))
  }

  predicate HasMethodName(node: Json)
  {
    var name := Get(node, "method");
    name.Some? && name.value.JStr? && !IsBlank(name.value.s)
  }

  /** A well-formed JSON-RPC 2.0 request object. */
  predicate IsValidRequest(node: Json)
  {
    node.JObj? && HasVersion(node) && HasMethodName(node)
  }

  /**
   * The violation the Java check reports for `node` (None for a null
   * reference), in the order the checks run: object, then version, then
   * method name.
   */
  function FirstViolation(node: Option<Json>): (r: Option<Violation>)
    ensures r.None? <==> node.Some? && IsValidRequest(node.value)
    ensures r == Some(NotAnObject) <==> node.None? || !node.value.JObj?
    ensures r == Some(BadVersion) <==> node.Some? && node.value.JObj? && !HasVersion(node.value)
    ensures r == Some(BadMethod) <==> node.Some? && node.value.JObj? && HasVersion(node.value) && !HasMethodName(node.value)
  {
    if node.None? || !node.value.JObj? then Some(NotAnObject)
    else
      var version := Get(node.value, "jsonrpc");
      var name := Get(node.value, "method");
      if version.None? || !version.value.JStr? || version.value.s != "2.0" then Some(BadVersion)
      else if name.None? || !name.value.JStr? then Some(BadMethod)
      else
        BlankIffTrimEmpty(name.value.s);
        if Trim(name.value.s) == "" then Some(BadMethod)
        else None
  }

  /**
   * Position of the first element at or after `from` that is no valid
   * request; None exactly when all of them are valid (a `Some` names an
   * invalid element).
   */
  function FirstInvalid(items: seq<Json>, from: nat): (r: Option<nat>)
    requires from <= |items|
    ensures r.None? ==> forall i :: from <= i < |items| ==> IsValidRequest(items[i])
    ensures r.Some? ==> from <= r.value < |items| && !IsValidRequest(items[r.value])
    ensures r.Some? ==> forall i :: from <= i < r.value ==> IsValidRequest(items[i])
    decreases |items| - from
  {
    if from == |items| then None
    else if !IsValidRequest(items[from]) then Some(from)
    else FirstInvalid(items, from + 1)
  }
}
