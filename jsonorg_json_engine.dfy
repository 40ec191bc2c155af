/**
 * `JsonOrgJsonEngine`: the JSON engine of the org.json binding.  It builds
 * request objects with `JSONUtil.toJSON` and reads the members of request
 * and response objects; most of the engine's other operations are empty
 * stubs.  Every exception is wrapped into a `JsonException`.
 */
module JsonOrgEngine {
  import opened Common
  import opened Failures
  import opened JavaModel
  import opened TypeConverters
  import opened JsonOrgUtil

  const JsonRpcVersion := "2.0"

  /** `JsonRpcError` as a bean: `code`, `message` and `data`, each with a getter and a setter. */
  const ErrorClass: ClassRef := BeanType("com.googlecode.jsonrpc4j.JsonRpcError",
    [Property("code", PrimitiveType(PInt)), Property("message", StringType), Property("data", ObjectType)])

  /** The values `Random.nextInt()` returns. */
  predicate IsInt32(n: int)
  {
    -0x8000_0000 <= n < 0x8000_0000
  }

  /** The object's members after the `put`s of `createRpcRequest`: a null method name or params puts nothing. */
  function RequestFields(methodName: Option<string>, id: string, params: JValue): (r: map<string, JValue>)
    ensures r.Keys == {"id", "jsonrpc"} + (if methodName.Some? then {"method"} else {}) + (if params.Null? then {} else {"params"})
    ensures r["id"] == StrVal(id) && r["jsonrpc"] == StrVal(JsonRpcVersion)
    ensures methodName.Some? ==> r["method"] == StrVal(methodName.value)
    ensures !params.Null? ==> r["params"] == params
  {
    var name := if methodName.Some? then StrVal(methodName.value) else Null;
    Put(Put(Put(Put(map[], "id", StrVal(id)), "jsonrpc", StrVal(JsonRpcVersion)), "method", name), "params", params)
  }

  /** The `Object[]` of the arguments, or the null reference. */
  function ArgumentsValue(arguments: Option<seq<JValue>>): JValue
  {
    if arguments.Some? then ArrayVal(ObjectType, arguments.value) else Null
  }

  /** `createRpcRequest(methodName, Object[])` with `id` the text of the random number. */
  function IndexedRequest(ctx: Context, methodName: Option<string>, arguments: Option<seq<JValue>>, id: string): Result<JValue>
  {
    match ToJson(ctx, ArgumentsValue(arguments), 0)
    case Err(e) => Err(JsonExceptionWrapping(e))
    case Ok(params) => Ok(OrgObjectVal(RequestFields(methodName, id, params)))
  }

  /**
   * `createRpcRequest(methodName, Object[])`: `nextInt` is the value drawn
   * from the engine's `Random`; the id is its decimal text.
   */
  method CreateRpcRequest(util: JSONUtil, methodName: Option<string>, arguments: Option<seq<JValue>>, nextInt: int)
    returns (r: Result<JValue>)
    requires IsInt32(nextInt)
    ensures r == IndexedRequest(util.Ctx(), methodName, arguments, IntToString(nextInt))
  {
    var params := util.ToJSON(ArgumentsValue(arguments), 0);
    if params.Err? {
      return Err(JsonExceptionWrapping(params.thrown));
    }
    return Ok(OrgObjectVal(RequestFields(methodName, IntToString(nextInt), params.value)));
  }

  /** The names of the arguments whose converted value is not null. */
  function NonNullNames(ctx: Context, arguments: map<string, JValue>): set<string>
    requires forall k :: k in arguments ==> ToJson(ctx, arguments[k], 0).Ok?
  {
    set k | k in arguments && !ToJson(ctx, arguments[k], 0).value.Null?
  }

  /** The members of the params object: every argument whose converted value is not null. */
  function ConvertedArguments(ctx: Context, arguments: map<string, JValue>): (r: map<string, JValue>)
    requires forall k :: k in arguments ==> ToJson(ctx, arguments[k], 0).Ok?
    ensures r.Keys == NonNullNames(ctx, arguments)
    ensures forall k :: k in r ==> !r[k].Null? && r[k] == ToJson(ctx, arguments[k], 0).value
  {
    map k | k in arguments && !ToJson(ctx, arguments[k], 0).value.Null? :: ToJson(ctx, arguments[k], 0).value
  }

  /**
   * `createRpcRequest(methodName, Map)`: the arguments' keys are visited in
   * the map's own order, so a failure is that of some argument that does
   * not convert; a null map fails on `keySet()`.
   */
  method CreateNamedRpcRequest(util: JSONUtil, methodName: Option<string>, arguments: Option<map<string, JValue>>, nextInt: int)
    returns (r: Result<JValue>)
    requires IsInt32(nextInt)
    ensures arguments.None? ==> r == Err(JsonExceptionWrapping(NullPointer()))
    ensures arguments.Some? ==> (r.Ok? <==> forall k :: k in arguments.value ==> ToJson(util.Ctx(), arguments.value[k], 0).Ok?)
    ensures r.Ok? ==> arguments.Some? && r.value == OrgObjectVal(RequestFields(methodName, IntToString(nextInt),
      OrgObjectVal(ConvertedArguments(util.Ctx(), arguments.value))))
    ensures r.Err? && arguments.Some? ==> exists k :: (k in arguments.value && ToJson(util.Ctx(), arguments.value[k], 0).Err?
      && r.thrown == JsonExceptionWrapping(ToJson(util.Ctx(), arguments.value[k], 0).thrown))
  {
    if arguments.None? {
      return Err(JsonExceptionWrapping(NullPointer()));
    }
    var args := arguments.value;
    ghost var ctx := util.Ctx();
    var params: map<string, JValue> := map[];
    var unseen := args.Keys;
    while unseen != {}
      invariant unseen <= args.Keys
      invariant forall k :: k in args && k !in unseen ==> ToJson(ctx, args[k], 0).Ok?
      invariant forall k :: k in args && k !in unseen ==> (k in params <==> !ToJson(ctx, args[k], 0).value.Null?)
      invariant forall k :: k in params ==> k in args && k !in unseen && params[k] == ToJson(ctx, args[k], 0).value
      decreases |unseen|
    {
      var name :| name in unseen;
      var x := util.ToJSON(args[name], 0);
      if x.Err? {
        return Err(JsonExceptionWrapping(x.thrown));
      }
      params := Put(params, name, x.value);
      unseen := unseen - {name};
    }
    assert params == ConvertedArguments(ctx, args);
    return Ok(OrgObjectVal(RequestFields(methodName, IntToString(nextInt), OrgObjectVal(params))));
  }

  /** `((JSONObject) json).get(key)`: a null reference, another class or a missing key fail. */
  function Member(json: JValue, key: string): (r: Result<JValue>)
    ensures r.Ok? <==> json.OrgObjectVal? && key in json.fields
    ensures r.Ok? ==> r.value == json.fields[key]
    ensures json.Null? ==> r == Err(NullPointer())
    ensures json.OrgObjectVal? && key !in json.fields ==> r == Err(JSONException())
  {
    if json.Null? then Err(NullPointer())
    else if !json.OrgObjectVal? then Err(ClassCast())
    else if key !in json.fields then Err(JSONException())
    else Ok(json.fields[key])
  }

  /** `((JSONObject) json).getString(key)`: the member's `toString()`, wrapped on failure. */
  function MemberText(p: Platform, json: JValue, key: string): (r: Result<string>)
    ensures r.Ok? <==> json.OrgObjectVal? && key in json.fields
    ensures r.Ok? ==> r.value == ToText(p, json.fields[key])
    ensures r.Err? ==> r.thrown == JsonExceptionWrapping(Member(json, key).thrown)
  {
    match Member(json, key)
    case Ok(x) => Ok(ToText(p, x))
    case Err(e) => Err(JsonExceptionWrapping(e))
  }

  /** `getIdFromRpcRequest(json)`. */
  function GetIdFromRpcRequest(p: Platform, json: JValue): (r: Result<string>)
    ensures r.Ok? <==> json.OrgObjectVal? && "id" in json.fields
    ensures r.Ok? ==> r.value == ToText(p, json.fields["id"])
    ensures r.Err? ==> r.thrown.className == "com.googlecode.jsonrpc4j.JsonException"
  {
    MemberText(p, json, "id")
  }

  /** `getMethodNameFromRpcRequest(json)`. */
  function GetMethodNameFromRpcRequest(p: Platform, json: JValue): (r: Result<string>)
    ensures r.Ok? <==> json.OrgObjectVal? && "method" in json.fields
    ensures r.Ok? ==> r.value == ToText(p, json.fields["method"])
    ensures r.Err? ==> r.thrown.className == "com.googlecode.jsonrpc4j.JsonException"
  {
    MemberText(p, json, "method")
  }

  /** `getJsonResultFromResponse(response)`: the `result` member, which must be present (it may be `JSONObject.NULL`). */
  function GetJsonResultFromResponse(response: JValue): (r: Result<JValue>)
    ensures r.Ok? <==> response.OrgObjectVal? && "result" in response.fields
    ensures r.Ok? ==> r.value == response.fields["result"]
    ensures r.Err? ==> r.thrown.className == "com.googlecode.jsonrpc4j.JsonException"
  {
    match Member(response, "result")
    case Ok(x) => Ok(x)
    case Err(e) => Err(JsonExceptionWrapping(e))
  }

  /**
   * `getParameterCountFromRpcRequest(json)`: no `params` member counts
   * zero, an array its entries, an object its members; anything else
   * cannot be cast to `JSONObject`.
   */
  function GetParameterCountFromRpcRequest(json: JValue): (r: Result<nat>)
    ensures r.Ok? ==> json.OrgObjectVal?
    ensures json.OrgObjectVal? && "params" !in json.fields ==> r == Ok(0)
    ensures json.OrgObjectVal? && "params" in json.fields && json.fields["params"].OrgArrayVal? ==>
      r == Ok(|json.fields["params"].list|)
    ensures json.OrgObjectVal? && "params" in json.fields && json.fields["params"].OrgObjectVal? ==>
      r == Ok(|json.fields["params"].fields|)
    ensures (json.OrgObjectVal? && "params" in json.fields
             && !json.fields["params"].OrgArrayVal? && !json.fields["params"].OrgObjectVal?) ==>
      r == Err(JsonExceptionWrapping(ClassCast()))
  {
    if json.Null? then Err(JsonExceptionWrapping(NullPointer()))
    else if !json.OrgObjectVal? then Err(JsonExceptionWrapping(ClassCast()))
    else if "params" !in json.fields then Ok(0)
    else
      var params := json.fields["params"];
      if params.OrgArrayVal? then Ok(|params.list|)
      else if params.OrgObjectVal? then Ok(|params.fields|)
      else Err(JsonExceptionWrapping(ClassCast()))
  }

  /** `getJsonErrorFromResponse(response)`: the `error` member bound to `JsonRpcError` by `JSONUtil.fromJSON`. */
  function ErrorFromResponse(ctx: Context, response: JValue): Result<JValue>
  {
    match Member(response, "error")
    case Err(e) => Err(JsonExceptionWrapping(e))
    case Ok(error) =>
      match FromJson(ctx, error, ErrorClass)
      case Err(e) => Err(JsonExceptionWrapping(e))
      case Ok(x) => Ok(x)
  }

  method GetJsonErrorFromResponse(util: JSONUtil, response: JValue) returns (r: Result<JValue>)
    ensures r == ErrorFromResponse(util.Ctx(), response)
  {
    var error := Member(response, "error");
    if error.Err? {
      return Err(JsonExceptionWrapping(error.thrown));
    }
    var x := util.FromJSON(error.value, ErrorClass);
    if x.Err? {
      return Err(JsonExceptionWrapping(x.thrown));
    }
    return Ok(x.value);
  }

  /** `isNotification`, `isRpcBatchRequest` and `isRpcRequestParametersIndexed` are stubs that answer false. */
  predicate IsNotification(json: JValue)
    ensures !IsNotification(json)
  {
    false
  }

  predicate IsRpcBatchRequest(json: JValue)
  {
    false
  }

  predicate IsRpcRequestParametersIndexed(json: JValue)
  {
    false
  }

  /** The unimplemented predicates answer false for every value, so no request is ever a notification or a batch. */
  lemma StubPredicatesAnswerFalse(json: JValue)
    ensures !IsNotification(json) && !IsRpcBatchRequest(json) && !IsRpcRequestParametersIndexed(json)
  {
  }

  // ----- properties -----

  /**
   * A request built from an argument array reads back: the id is the
   * random number's text, the method its name (none when the name was
   * null), and the parameter count the number of arguments.
   */
  lemma IndexedRequestReadsBack(ctx: Context, methodName: Option<string>, arguments: Option<seq<JValue>>, nextInt: int)
    requires IsInt32(nextInt)
    requires IndexedRequest(ctx, methodName, arguments, IntToString(nextInt)).Ok?
    ensures var request := IndexedRequest(ctx, methodName, arguments, IntToString(nextInt)).value;
      && GetIdFromRpcRequest(ctx.platform, request) == Ok(IntToString(nextInt))
      && (methodName.Some? ==> GetMethodNameFromRpcRequest(ctx.platform, request) == Ok(methodName.value))
      && (methodName.None? ==> GetMethodNameFromRpcRequest(ctx.platform, request) == Err(JsonExceptionWrapping(JSONException())))
      && GetParameterCountFromRpcRequest(request) == Ok(if arguments.Some? then |arguments.value| else 0)
      && !IsNotification(request)
  {
    var params := ToJson(ctx, ArgumentsValue(arguments), 0).value;
    var fields := RequestFields(methodName, IntToString(nextInt), params);
    assert IndexedRequest(ctx, methodName, arguments, IntToString(nextInt)).value == OrgObjectVal(fields);
    assert "id" in fields && fields["id"] == StrVal(IntToString(nextInt));
    if arguments.Some? {
      ArrayShape(ctx, ArgumentsValue(arguments), 0);
    }
  }

  /** An argument array that is not nested too deep and holds only convertible values gives a request. */
  lemma ShallowArgumentsAccepted(ctx: Context, methodName: Option<string>, arguments: seq<JValue>, id: string)
    requires Clean(ctx, ArrayVal(ObjectType, arguments))
    requires Depth(ctx.converters, ArrayVal(ObjectType, arguments)) <= MaxObjectDepthLevel + 1
    ensures IndexedRequest(ctx, methodName, Some(arguments), id).Ok?
  {
    DepthLimit(ctx, ArrayVal(ObjectType, arguments));
  }

  /** Arguments nested more than `MAX_OBJECT_DEPTH_LEVEL` levels deep are refused. */
  lemma DeepArgumentsRefused(ctx: Context, methodName: Option<string>, arguments: seq<JValue>, id: string)
    requires Depth(ctx.converters, ArrayVal(ObjectType, arguments)) > MaxObjectDepthLevel + 1
    ensures IndexedRequest(ctx, methodName, Some(arguments), id).Err?
    ensures IndexedRequest(ctx, methodName, Some(arguments), id).thrown.className == "com.googlecode.jsonrpc4j.JsonException"
  {
    DepthLimit(ctx, ArrayVal(ObjectType, arguments));
  }

  /**
   * A request built from named arguments counts only the arguments whose
   * converted value is not null: `JSONObject.put` drops a null.
   */
  lemma NamedRequestCount(ctx: Context, methodName: Option<string>, arguments: map<string, JValue>, id: string)
    requires forall k :: k in arguments ==> ToJson(ctx, arguments[k], 0).Ok?
    ensures var request := OrgObjectVal(RequestFields(methodName, id, OrgObjectVal(ConvertedArguments(ctx, arguments))));
      GetParameterCountFromRpcRequest(request)
        == Ok(|NonNullNames(ctx, arguments)|)
    ensures (forall k :: k in arguments ==> !ToJson(ctx, arguments[k], 0).value.Null?) ==>
      GetParameterCountFromRpcRequest(OrgObjectVal(RequestFields(methodName, id, OrgObjectVal(ConvertedArguments(ctx, arguments)))))
        == Ok(|arguments|)
  {
    var converted := ConvertedArguments(ctx, arguments);
    var request := OrgObjectVal(RequestFields(methodName, id, OrgObjectVal(converted)));
    assert "params" in request.fields && request.fields["params"] == OrgObjectVal(converted);
    assert GetParameterCountFromRpcRequest(request) == Ok(|converted|);
    assert |converted| == |converted.Keys|;
    if forall k :: k in arguments ==> !ToJson(ctx, arguments[k], 0).value.Null? {
      assert converted.Keys == arguments.Keys;
      assert |arguments| == |arguments.Keys|;
    }
  }

  /**
   * A JSON-RPC error object with an integer code, a text message and a
   * null `data` decodes into the `JsonRpcError` with those values.
   */
  lemma ErrorDecodes(ctx: Context, response: JValue, code: int, message: string)
    requires ctx.converters == DefaultConverters
    requires response.OrgObjectVal? && "error" in response.fields
    requires var error := response.fields["error"];
      error.OrgObjectVal? && "code" in error.fields && "message" in error.fields && "data" in error.fields
      && error.fields["code"] == IntegralVal(PInt, code) && error.fields["message"] == StrVal(message)
      && error.fields["data"] == JSONNullVal
    ensures ErrorFromResponse(ctx, response) == Ok(BeanVal(ErrorClass, [IntegralVal(PInt, code), StrVal(message), Null]))
  {
    var error := response.fields["error"];
    ErrorMembersSet(ctx, error, code, message);
    ErrorClassNotConverted(ctx);
    assert FromJson(ctx, error, ErrorClass) == FromJsonObject(ctx, error, ErrorClass);
  }

  lemma ErrorMembersSet(ctx: Context, error: JValue, code: int, message: string)
    requires ctx.converters == DefaultConverters
    requires error.OrgObjectVal? && "code" in error.fields && "message" in error.fields && "data" in error.fields
      && error.fields["code"] == IntegralVal(PInt, code) && error.fields["message"] == StrVal(message)
      && error.fields["data"] == JSONNullVal
    ensures SetProperties(ctx, error, ErrorClass, 3) == Ok([IntegralVal(PInt, code), StrVal(message), Null])
  {
    CodeAndMessageSet(ctx, error, code, message);
    DataStep(ctx, error, [IntegralVal(PInt, code), StrVal(message)]);
    assert [IntegralVal(PInt, code), StrVal(message)] + [Null] == [IntegralVal(PInt, code), StrVal(message), Null];
  }

  lemma CodeAndMessageSet(ctx: Context, error: JValue, code: int, message: string)
    requires ctx.converters == DefaultConverters
    requires error.OrgObjectVal? && "code" in error.fields && "message" in error.fields
      && error.fields["code"] == IntegralVal(PInt, code) && error.fields["message"] == StrVal(message)
    ensures SetProperties(ctx, error, ErrorClass, 2) == Ok([IntegralVal(PInt, code), StrVal(message)])
  {
    CodeSet(ctx, error, code);
    MessageStep(ctx, error, [IntegralVal(PInt, code)], message);
    assert [IntegralVal(PInt, code)] + [StrVal(message)] == [IntegralVal(PInt, code), StrVal(message)];
  }

  lemma CodeSet(ctx: Context, error: JValue, code: int)
    requires ctx.converters == DefaultConverters
    requires error.OrgObjectVal? && "code" in error.fields && error.fields["code"] == IntegralVal(PInt, code)
    ensures SetProperties(ctx, error, ErrorClass, 1) == Ok([IntegralVal(PInt, code)])
  {
    var codeValue := IntegralVal(PInt, code);
    DefaultsDecode(ctx, codeValue, PrimitiveType(PInt));
    assert [] + [codeValue] == [codeValue];
  }

  /** A text `message` member sets the second property. */
  lemma MessageStep(ctx: Context, error: JValue, prefix: seq<JValue>, message: string)
    requires ctx.converters == DefaultConverters && error.OrgObjectVal?
    requires SetProperties(ctx, error, ErrorClass, 1) == Ok(prefix)
    requires "message" in error.fields && error.fields["message"] == StrVal(message)
    ensures SetProperties(ctx, error, ErrorClass, 2) == Ok(prefix + [StrVal(message)])
  {
    DefaultsDecode(ctx, StrVal(message), StringType);
  }

  /** A `JSONObject.NULL` data member sets the third property to null. */
  lemma DataStep(ctx: Context, error: JValue, prefix: seq<JValue>)
    requires error.OrgObjectVal?
    requires SetProperties(ctx, error, ErrorClass, 2) == Ok(prefix)
    requires "data" in error.fields && error.fields["data"] == JSONNullVal
    ensures SetProperties(ctx, error, ErrorClass, 3) == Ok(prefix + [Null])
  {
    assert FromJson(ctx, JSONNullVal, ObjectType) == Ok(Null);
  }

  /** The built-in converters hand back an integer or a text unchanged. */
  lemma DefaultsDecode(ctx: Context, v: JValue, clazz: ClassRef)
    requires ctx.converters == DefaultConverters
    requires (v.IntegralVal? && clazz == PrimitiveType(v.kind)) || (v.StrVal? && clazz == StringType)
    ensures FromJson(ctx, v, clazz) == Ok(v)
  {
    ConvertFromAt(ctx, v, clazz, 3);
  }

  /** No built-in converter supports `JsonRpcError`: it is decoded as a bean. */
  lemma ErrorClassNotConverted(ctx: Context)
    requires ctx.converters == DefaultConverters
    ensures !Convertible(ctx.converters, ErrorClass)
  {
    var cs := ctx.converters;
    assert !Supports(cs[0], ErrorClass) && !Supports(cs[1], ErrorClass);
    assert !Supports(cs[2], ErrorClass) && !Supports(cs[3], ErrorClass);
  }

  /**
   * The engine cannot decode an error object that leaves out `data`,
   * which JSON-RPC 2.0 makes optional: every bean property must be present.
   */
  lemma ErrorWithoutDataRejected(ctx: Context, response: JValue)
    requires !Convertible(ctx.converters, ErrorClass)
    requires response.OrgObjectVal? && "error" in response.fields
    requires response.fields["error"].OrgObjectVal? && "data" !in response.fields["error"].fields
    ensures ErrorFromResponse(ctx, response).Err?
  {
    var error := response.fields["error"];
    assert ErrorClass.properties[2].name == "data";
    assert SetProperties(ctx, error, ErrorClass, 3).Err?;
    assert FromJson(ctx, error, ErrorClass) == FromJsonObject(ctx, error, ErrorClass);
  }
}
