/**
 * `JacksonJsonEngine` of the Spring exporter line: request validation,
 * the notification and batch tests, the accessors that read a request
 * object, and the builders of outgoing requests.  Jackson's data binding
 * (object to tree and tree to object) is the `Codec` oracle.
 */
module JacksonEngine {
  import opened Common
  import opened JsonTree
  import opened Failures
  import opened JavaModel
  import opened RequestValidation

  /**
   * Jackson's data binding: `readValue` maps a tree to an object of a
   * class, `toTree` maps an object to its tree; each may fail.
   */
  datatype Codec = Codec(readValue: (Json, ClassRef) -> Result<JValue>, toTree: JValue -> Result<Json>)

  const NotAnObjectNode: string := "Source is not a ObjectNode"
  const NotAnArrayNode: string := "Source is not an ArrayNode"
  const NotAJsonNode: string := "Source is not a JsonNode"
  const NotIndexed: string := "JSON-RPC request params are not indexed"
  const NotNamed: string := "JSON-RPC request params are not named"

  /** The class the error member of a response is bound to. */
  const ErrorClass: ClassRef := BeanType("com.googlecode.jsonrpc4j.JsonRpcError", [])

  /** `validateRpcRequest`: the node itself when it is a valid request, else the first violation as a `JsonException`. */
  function ValidateRpcRequest(json: Option<Json>): (r: Result<Json>)
    ensures r.Ok? <==> json.Some? && IsValidRequest(json.value)
    ensures r.Ok? ==> r.value == json.value
    ensures r.Err? ==> r.thrown == JsonException(Some(Message(FirstViolation(json).value)))
  {
    var v := FirstViolation(json);
    if v.Some? then Err(JsonException(Some(Message(v.value)))) else Ok(json.value)
  }

  /** `validateRpcBatchRequest`: an array whose elements are all valid requests comes back unchanged. */
  method ValidateRpcBatchRequest(json: Json) returns (r: Result<Json>)
    ensures !json.JArr? ==> r == Err(JsonException(Some(NotAnArrayNode)))
    ensures json.JArr? ==> (r.Ok? <==> forall i :: 0 <= i < |json.items| ==> IsValidRequest(json.items[i]))
    ensures r.Ok? ==> r.value == json
    ensures json.JArr? && r.Err? ==>
      var k := FirstInvalid(json.items, 0).value;
      r.thrown == JsonException(Some(Message(FirstViolation(Some(json.items[k])).value)))
  {
    if !json.JArr? {
      return Err(JsonException(Some(NotAnArrayNode)));
    }
    for i := 0 to |json.items|
      invariant forall j :: 0 <= j < i ==> IsValidRequest(json.items[j])
    {
      var checked := ValidateRpcRequest(Some(json.items[i]));
      if checked.Err? {
        FirstInvalidIs(json.items, 0, i);
        return checked;
      }
    }
    return Ok(json);
  }

  /** The first invalid element is the one every earlier element passes. */
  lemma {:induction false} FirstInvalidIs(items: seq<Json>, from: nat, k: nat)
    requires from <= k < |items| && !IsValidRequest(items[k])
    requires forall j :: from <= j < k ==> IsValidRequest(items[j])
    ensures FirstInvalid(items, from) == Some(k)
    decreases k - from
  {
    if from < k {
      FirstInvalidIs(items, from + 1, k);
    }
  }

  /** `isRpcBatchRequest`: an array node; a batch is never itself a valid request. */
  predicate IsRpcBatchRequest(json: Option<Json>)
    ensures IsRpcBatchRequest(json) ==> ValidateRpcRequest(json).Err?
    ensures json.Some? && json.value.JObj? ==> !IsRpcBatchRequest(json)
  {
    json.Some? && json.value.JArr?
  }

  /** `isNotification`: an object whose id member is absent or JSON null; never a non-object. */
  predicate IsNotification(json: Json)
    ensures IsNotification(json) ==> !IsRpcBatchRequest(Some(json))
    ensures json.JObj? && "id" !in json.fields ==> IsNotification(json)
    ensures json.JObj? && "id" in json.fields && json.fields["id"].JStr? ==> !IsNotification(json)
  {
    json.JObj? && (Get(json, "id").None? || Get(json, "id") == Some(JNull))
  }

  /** A notification is exactly an object without an id member or with a null one; a batch or a scalar never is. */
  lemma NotificationIffNoId(json: Json)
    ensures IsNotification(json) <==> json.JObj? && ("id" !in json.fields || json.fields["id"].JNull?)
    ensures json.JArr? ==> !IsNotification(json)
  {
  }

  /** `readJson`: a tree, a null tree at the end of the input, or the parse error wrapped in a `JsonException`. */
  function ReadJson(input: Input): (r: Result<Option<Json>>)
    ensures r.Err? <==> input.Unparseable?
    ensures input.Parsed? ==> r == Ok(Some(input.node))
  {
    match input
    case Unparseable => Err(JsonExceptionWrapping(JacksonParseError()))
    case EndOfInput => Ok(None)
    case Parsed(node) => Ok(Some(node))
  }

  /** `node.get(name).getValueAsText()` on a request object: a missing member dereferences null. */
  function MemberText(json: Json, name: string): (r: Result<Option<string>>)
    ensures !json.JObj? ==> r == Err(JsonException(Some(NotAnObjectNode)))
    ensures json.JObj? && name !in json.fields ==> r == Err(NullPointer())
    ensures json.JObj? && name in json.fields ==> r == Ok(ValueAsText(json.fields[name]))
  {
    if !json.JObj? then Err(JsonException(Some(NotAnObjectNode)))
    else if name !in json.fields then Err(NullPointer())
    else Ok(ValueAsText(json.fields[name]))
  }

  /** `getIdFromRpcRequest`. */
  function GetIdFromRpcRequest(json: Json): (r: Result<Option<string>>)
    ensures r.Ok? <==> json.JObj? && "id" in json.fields
    ensures json.JObj? && "id" in json.fields && json.fields["id"].JStr? ==> r == Ok(Some(json.fields["id"].s))
  {
    MemberText(json, "id")
  }

  /** `getMethodNameFromRpcRequest`. */
  function GetMethodNameFromRpcRequest(json: Json): (r: Result<Option<string>>)
    ensures r.Ok? <==> json.JObj? && "method" in json.fields
    ensures IsValidRequest(json) ==> r.Ok? && r.value.Some? && !IsBlank(r.value.value)
  {
    MemberText(json, "method")
  }

  /** The params member of a request object, or the exception reading it raises. */
  function ParamsOf(json: Json): (r: Result<Json>)
    ensures !json.JObj? ==> r == Err(JsonException(Some(NotAnObjectNode)))
    ensures json.JObj? && "params" !in json.fields ==> r == Err(NullPointer())
    ensures json.JObj? && "params" in json.fields ==> r == Ok(json.fields["params"])
  {
    if !json.JObj? then Err(JsonException(Some(NotAnObjectNode)))
    else if "params" !in json.fields then Err(NullPointer())
    else Ok(json.fields["params"])
  }

  /** `isRpcRequestParametersIndexed`: the params member is an array. */
  function IsRpcRequestParametersIndexed(json: Json): (r: Result<bool>)
    ensures r.Ok? <==> ParamsOf(json).Ok?
    ensures r.Ok? ==> r.value == ParamsOf(json).value.JArr?
  {
    var params := ParamsOf(json);
    if params.Err? then Err(params.thrown) else Ok(params.value.JArr?)
  }

  /** `getParameterCountFromRpcRequest`: the size of the params member. */
  function GetParameterCountFromRpcRequest(json: Json): (r: Result<nat>)
    ensures r.Ok? <==> ParamsOf(json).Ok?
    ensures r.Ok? && ParamsOf(json).value.JArr? ==> r.value == |ParamsOf(json).value.items|
    ensures r.Ok? && ParamsOf(json).value.JObj? ==> r.value == |ParamsOf(json).value.fields|
  {
    var params := ParamsOf(json);
    if params.Err? then Err(params.thrown) else Ok(Size(params.value))
  }

  /** `getParameterFromRpcRequest(json, index)`: refused unless the params are an array; null past its end. */
  function GetParameterByIndex(json: Json, index: int): (r: Result<Option<Json>>)
    ensures ParamsOf(json).Ok? && !ParamsOf(json).value.JArr? ==> r == Err(JsonException(Some(NotIndexed)))
    ensures r.Ok? ==> ParamsOf(json).Ok? && r.value == At(ParamsOf(json).value, index)
  {
    var indexed := IsRpcRequestParametersIndexed(json);
    if indexed.Err? then Err(indexed.thrown)
    else if !indexed.value then Err(JsonException(Some(NotIndexed)))
    else Ok(At(ParamsOf(json).value, index))
  }

  /**
   * `getParameterFromRpcRequest(json, name)`: refused when the params are
   * an array; params that are neither array nor object fail the cast.
   */
  function GetParameterByName(json: Json, name: string): (r: Result<Option<Json>>)
    ensures ParamsOf(json).Ok? && ParamsOf(json).value.JArr? ==> r == Err(JsonException(Some(NotNamed)))
    ensures ParamsOf(json).Ok? && !ParamsOf(json).value.JArr? && !ParamsOf(json).value.JObj? ==> r == Err(ClassCast())
    ensures r.Ok? ==> ParamsOf(json).Ok? && r.value == Get(ParamsOf(json).value, name)
  {
    var indexed := IsRpcRequestParametersIndexed(json);
    if indexed.Err? then Err(indexed.thrown)
    else if indexed.value then Err(JsonException(Some(NotNamed)))
    else
      var params := ParamsOf(json).value;
      if !params.JObj? then Err(ClassCast()) else Ok(Get(params, name))
  }

  /**
   * `getJsonParametersFromRpcRequest`: the elements of an array params
   * member in order, or a one-element list holding any other params member.
   */
  method GetJsonParametersFromRpcRequest(json: Json) returns (r: Result<seq<Json>>)
    ensures r.Err? <==> ParamsOf(json).Err?
    ensures r.Err? ==> r.thrown == ParamsOf(json).thrown
    ensures r.Ok? && ParamsOf(json).value.JArr? ==> r.value == ParamsOf(json).value.items
    ensures r.Ok? && !ParamsOf(json).value.JArr? ==> r.value == [ParamsOf(json).value]
  {
    var params := ParamsOf(json);
    if params.Err? {
      return Err(params.thrown);
    }
    var ret: seq<Json> := [];
    if params.value.JArr? {
      var elements := params.value.items;
      for i := 0 to |elements|
        invariant ret == elements[..i]
      {
        ret := ret + [elements[i]];
      }
      assert elements[..|elements|] == elements;
      return Ok(ret);
    } else {
      ret := ret + [params.value];
    }
    return Ok(ret);
  }

  /** `jsonToObject`: a tree bound to a class; a null tree or a binding failure becomes a `JsonException`. */
  function JsonToObject(codec: Codec, json: Option<Json>, valueType: ClassRef): (r: Result<JValue>)
    ensures json.None? ==> r == Err(JsonException(Some(NotAJsonNode)))
    ensures json.Some? && codec.readValue(json.value, valueType).Ok? ==> r == codec.readValue(json.value, valueType)
    ensures json.Some? && codec.readValue(json.value, valueType).Err? ==>
      r == Err(JsonExceptionWrapping(codec.readValue(json.value, valueType).thrown))
  {
    if json.None? then Err(JsonException(Some(NotAJsonNode)))
    else
      match codec.readValue(json.value, valueType)
      case Ok(v) => Ok(v)
      case Err(e) => Err(JsonExceptionWrapping(e))
  }

  /** `objectToJson`: the tree of an object; a serialisation failure becomes a `JsonException`. */
  function ObjectToJson(codec: Codec, value: JValue): (r: Result<Json>)
    ensures r.Ok? <==> codec.toTree(value).Ok?
    ensures r.Ok? ==> r.value == codec.toTree(value).value
    ensures r.Err? ==> r.thrown == JsonExceptionWrapping(codec.toTree(value).thrown)
  {
    match codec.toTree(value)
    case Ok(tree) => Ok(tree)
    case Err(e) => Err(JsonExceptionWrapping(e))
  }

  /** `getJsonErrorFromResponse`: the error member bound to `JsonRpcError`. */
  function GetJsonErrorFromResponse(codec: Codec, response: Json): (r: Result<JValue>)
    ensures !response.JObj? ==> r == Err(JsonException(Some(NotAnObjectNode)))
    ensures response.JObj? ==> r == JsonToObject(codec, Get(response, "error"), ErrorClass)
  {
    if !response.JObj? then Err(JsonException(Some(NotAnObjectNode)))
    else JsonToObject(codec, Get(response, "error"), ErrorClass)
  }

  /** `getJsonResultFromResponse`: the result member, null when absent. */
  function GetJsonResultFromResponse(response: Json): (r: Result<Option<Json>>)
    ensures r.Err? <==> !response.JObj?
    ensures r.Ok? ==> r.value == Get(response, "result")
  {
    if !response.JObj? then Err(JsonException(Some(NotAnObjectNode))) else Ok(Get(response, "result"))
  }

  // ----- building requests -----

  /** The trees of the arguments in order, or the failure of the first argument that does not convert. */
  function ArgumentTrees(codec: Codec, arguments: seq<JValue>): (r: Result<seq<Json>>)
    ensures r.Ok? ==> |r.value| == |arguments| && forall i :: 0 <= i < |arguments| ==> codec.toTree(arguments[i]) == Ok(r.value[i])
  {
    if |arguments| == 0 then Ok([])
    else
      var init := ArgumentTrees(codec, arguments[..|arguments| - 1]);
      if init.Err? then init
      else
        var last := ObjectToJson(codec, arguments[|arguments| - 1]);
        if last.Err? then Err(last.thrown) else Ok(init.value + [last.value])
  }

  /**
   * The trees fail exactly when some argument does not convert, and then
   * with the wrapped failure of the first such argument.
   */
  lemma {:induction false} ArgumentTreesFailure(codec: Codec, arguments: seq<JValue>)
    ensures ArgumentTrees(codec, arguments).Err? <==> exists k :: 0 <= k < |arguments| && codec.toTree(arguments[k]).Err?
    ensures ArgumentTrees(codec, arguments).Err? ==>
      exists k :: 0 <= k < |arguments| && codec.toTree(arguments[k]).Err?
                  && (forall i :: 0 <= i < k ==> codec.toTree(arguments[i]).Ok?)
                  && ArgumentTrees(codec, arguments).thrown == JsonExceptionWrapping(codec.toTree(arguments[k]).thrown)
  {
    if |arguments| > 0 {
      var n := |arguments| - 1;
      var init := arguments[..n];
      ArgumentTreesFailure(codec, init);
      assert forall i :: 0 <= i < n ==> init[i] == arguments[i];
      if ArgumentTrees(codec, init).Err? {
        var k :| 0 <= k < n && codec.toTree(init[k]).Err?
                 && (forall i :: 0 <= i < k ==> codec.toTree(init[i]).Ok?)
                 && ArgumentTrees(codec, init).thrown == JsonExceptionWrapping(codec.toTree(init[k]).thrown);
        assert codec.toTree(arguments[k]).Err?;
      } else if codec.toTree(arguments[n]).Err? {
        assert forall i :: 0 <= i < n ==> codec.toTree(arguments[i]).Ok?;
      } else {
        assert forall i :: 0 <= i < n ==> codec.toTree(arguments[i]).Ok?;
      }
    }
  }

  /** The members `writeCommonRpcRequestFields` puts: version, method (null when the name is null) and id. */
  function CommonFields(methodName: Option<string>, id: string): map<string, Json>
  {
    map["jsonrpc" := JStr("2.0"), "method" := TextNode(methodName), "id" := JStr(id)]
  }

  /**
   * `createRpcRequest(methodName, Object[])` with `id` standing for the
   * random UUID: the params member holds the argument trees, same count,
   * same order.
   */
  method CreateRpcRequest(codec: Codec, methodName: Option<string>, arguments: seq<JValue>, id: string) returns (r: Result<Json>)
    ensures r.Ok? <==> ArgumentTrees(codec, arguments).Ok?
    ensures r.Ok? ==> r.value == JObj(CommonFields(methodName, id)["params" := JArr(ArgumentTrees(codec, arguments).value)])
    ensures r.Err? ==> r.thrown == ArgumentTrees(codec, arguments).thrown
  {
    var params: seq<Json> := [];
    for i := 0 to |arguments|
      invariant ArgumentTrees(codec, arguments[..i]) == Ok(params)
    {
      assert arguments[..i + 1][..i] == arguments[..i];
      var tree := ObjectToJson(codec, arguments[i]);
      if tree.Err? {
        TreesKeepFailure(codec, arguments, i + 1);
        return Err(tree.thrown);
      }
      params := params + [tree.value];
    }
    assert arguments[..|arguments|] == arguments;
    return Ok(JObj(CommonFields(methodName, id)["params" := JArr(params)]));
  }

  /** A failure on a prefix is the failure of the whole argument list. */
  lemma {:induction false} TreesKeepFailure(codec: Codec, arguments: seq<JValue>, j: nat)
    requires j <= |arguments| && ArgumentTrees(codec, arguments[..j]).Err?
    ensures ArgumentTrees(codec, arguments) == ArgumentTrees(codec, arguments[..j])
    decreases |arguments| - j
  {
    if j < |arguments| {
      assert arguments[..j + 1][..j] == arguments[..j];
      TreesKeepFailure(codec, arguments, j + 1);
    } else {
      assert arguments[..j] == arguments;
    }
  }

  /**
   * `createRpcRequest(methodName, Map)` with `id` standing for the random
   * UUID: the params object has exactly the argument keys, each holding
   * its argument's tree.  The keys are visited in the map's own order, so
   * on failure the exception comes from some argument that does not
   * convert.
   */
  method CreateNamedRpcRequest(codec: Codec, methodName: Option<string>, arguments: map<string, JValue>, id: string) returns (r: Result<Json>)
    ensures r.Ok? <==> forall k :: k in arguments ==> codec.toTree(arguments[k]).Ok?
    ensures r.Ok? ==> r.value.JObj? && r.value.fields.Keys == {"jsonrpc", "method", "id", "params"}
    ensures r.Ok? ==> r.value.fields["jsonrpc"] == JStr("2.0") && r.value.fields["method"] == TextNode(methodName) && r.value.fields["id"] == JStr(id)
    ensures r.Ok? ==> var params := r.value.fields["params"];
      params.JObj? && params.fields.Keys == arguments.Keys
      && forall k :: k in arguments ==> codec.toTree(arguments[k]) == Ok(params.fields[k])
    ensures r.Err? ==> exists k :: k in arguments && codec.toTree(arguments[k]).Err? && r.thrown == JsonExceptionWrapping(codec.toTree(arguments[k]).thrown)
  {
    var params: map<string, Json> := map[];
    var unseen := arguments.Keys;
    while unseen != {}
      invariant unseen <= arguments.Keys
      invariant params.Keys == arguments.Keys - unseen
      invariant forall k :: k in params ==> codec.toTree(arguments[k]) == Ok(params[k])
      decreases |unseen|
    {
      var name :| name in unseen;
      var tree := ObjectToJson(codec, arguments[name]);
      if tree.Err? {
        assert name in arguments && codec.toTree(arguments[name]).Err?;
        return Err(tree.thrown);
      }
      params := params[name := tree.value];
      unseen := unseen - {name};
    }
    assert params.Keys == arguments.Keys;
    CommonFieldsWithParams(methodName, id, JObj(params));
    return Ok(JObj(CommonFields(methodName, id)["params" := JObj(params)]));
  }

  lemma CommonFieldsWithParams(methodName: Option<string>, id: string, params: Json)
    ensures var fields := CommonFields(methodName, id)["params" := params];
      && fields.Keys == {"jsonrpc", "method", "id", "params"}
      && fields["jsonrpc"] == JStr("2.0") && fields["method"] == TextNode(methodName) && fields["id"] == JStr(id)
      && fields["params"] == params
  {
  }
}
