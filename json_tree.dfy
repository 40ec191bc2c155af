/**
 * The JSON tree that Jackson 1.x hands to the library (`JsonNode` and its
 * subclasses) and the node accessors the protocol code relies on.  Numbers
 * are integers: floating point values are not part of this model.
 */
module JsonTree {
  import opened Common

  datatype Json =
    | JNull
    | JBool(b: bool)
    | JNum(n: int)
    | JStr(s: string)
    | JArr(items: seq<Json>)
    | JObj(fields: map<string, Json>)

  /** `node.get(name)`: the member of an object node, or null when absent or when the node is no object. */
  function Get(node: Json, name: string): (r: Option<Json>)
    ensures r.Some? <==> node.JObj? && name in node.fields
    ensures r.Some? ==> r.value == node.fields[name]
  {
    if node.JObj? && name in node.fields then Some(node.fields[name]) else None
  }

  /** `node.has(name)`. */
  predicate Has(node: Json, name: string)
  {
    Get(node, name).Some?
  }

  /** `node.get(index)`: the element of an array node, or null when out of range or when the node is no array. */
  function At(node: Json, index: int): (r: Option<Json>)
    ensures r.Some? <==> node.JArr? && 0 <= index < |node.items|
    ensures r.Some? ==> r.value == node.items[index]
  {
    if node.JArr? && 0 <= index < |node.items| then Some(node.items[index]) else None
  }

  /** `node.size()`: the number of elements or members of a container, 0 for a value node. */
  function Size(node: Json): (r: nat)
    ensures node.JArr? ==> r == |node.items|
    ensures node.JObj? ==> r == |node.fields|
    ensures !node.JArr? && !node.JObj? ==> r == 0
  {
    match node
    case JArr(items) => |items|
    case JObj(fields) => |fields|
    case _ => 0
  }

  /**
   * `node.getValueAsText()`: the text of a text node, the decimal form of
   * a number, "true"/"false", "null" for the null node, and null for a
   * container.
   */
  function ValueAsText(node: Json): (r: Option<string>)
    ensures r.None? <==> node.JArr? || node.JObj?
    ensures node.JStr? ==> r == Some(node.s)
  {
    match node
    case JNull => Some("null")
    case JBool(b) => Some(if b then "true" else "false")
    case JNum(n) => Some(IntToString(n))
    case JStr(s) => Some(s)
    case _ => None
  }

  /** The value `ObjectNode.put(name, String)` stores: a null string becomes the null node. */
  function TextNode(s: Option<string>): (r: Json)
    ensures s.Some? <==> r.JStr?
    ensures s.Some? ==> r.s == s.value
  {
    if s.Some? then JStr(s.value) else JNull
  }

  /** The value `ObjectNode.put(name, JsonNode)` stores: a null node becomes the null node. */
  function NodeOrNull(n: Option<Json>): (r: Json)
    ensures n.Some? ==> r == n.value
    ensures n.None? ==> r == JNull
  {
    if n.Some? then n.value else JNull
  }

  /**
   * `node.getClass().getName()` for the tree Jackson 1.x builds: an integer
   * becomes an `IntNode`, a `LongNode` or a `BigIntegerNode` by its range.
   */
  function NodeClassName(node: Json): (r: string)
    ensures node.JNum? && -0x8000_0000 <= node.n < 0x8000_0000 ==> r == "org.codehaus.jackson.node.IntNode"
    ensures node.JStr? ==> r == "org.codehaus.jackson.node.TextNode"
  {
    match node
    case JNull => "org.codehaus.jackson.node.NullNode"
    case JBool(_) => "org.codehaus.jackson.node.BooleanNode"
    case JNum(n) =>
      if -0x8000_0000 <= n < 0x8000_0000 then "org.codehaus.jackson.node.IntNode"
      else if -0x8000_0000_0000_0000 <= n < 0x8000_0000_0000_0000 then "org.codehaus.jackson.node.LongNode"
      else "org.codehaus.jackson.node.BigIntegerNode"
    case JStr(_) => "org.codehaus.jackson.node.TextNode"
    case JArr(_) => "org.codehaus.jackson.node.ArrayNode"
    case JObj(_) => "org.codehaus.jackson.node.ObjectNode"
  }

  /** What reading one value from a stream yields: a parse failure, the end of input, or a tree. */
  datatype Input = Unparseable | EndOfInput | Parsed(node: Json)
}
