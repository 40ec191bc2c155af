/**
 * `JsonRpcServer`: reads a JSON-RPC request (an object or a batch array),
 * finds the handler method by name, arity and (for named parameters)
 * `@JsonRpcParamName` annotations, invokes it and writes the response.
 *
 * The handler object and Jackson's `ObjectMapper` are outside the model:
 * a `Handler` value gives what converting a parameter node to a Java
 * value and invoking a method on the handler yield.  The order in which a
 * `HashSet` of methods is iterated is a `HashOrder`.
 */
module JsonRpcServer {
  import opened Common
  import opened JsonTree
  import opened Failures
  import opened JavaModel
  import opened ReflectionUtil
  import opened ErrorMappings

  /** What `mapper.readValue` makes of a parameter node and what `method.invoke` on the handler returns (already as a tree). */
  datatype Handler = Handler(
    convert: (Json, ClassRef) -> Result<JValue>,
    invoke: (MethodInfo, seq<JValue>) -> Result<Json>)

  /** The response stream: every `mapper.writeValue` appends one value. */
  class JsonSink {
    var written: seq<Json>

    constructor ()
      ensures written == []
    {
      written := [];
    }

    method Write(value: Json)
      modifies this
      ensures written == old(written) + [value]
    {
      written := written + [value];
    }
  }

  // ----- request fields -----

  /** A field as read at lines 311-313: the value's text unless the node is absent or the null node. */
  function NonNullText(node: Option<Json>): (r: Option<string>)
    ensures node.None? || node == Some(JNull) ==> r.None?
    ensures node.Some? && node.value.JStr? ==> r == Some(node.value.s)
  {
    if node.Some? && !node.value.JNull? then ValueAsText(node.value) else None
  }

  // ----- method selection -----

  /** Whether the arity filter keeps a method for `paramCount` parameters. */
  predicate ArityFits(m: MethodInfo, paramCount: nat, allowExtraParams: bool)
  {
    if allowExtraParams then Arity(m) <= paramCount else Arity(m) == paramCount
  }

  function ArityFiltered(methods: set<MethodInfo>, paramCount: nat, allowExtraParams: bool): set<MethodInfo>
  {
    set m | m in methods && ArityFits(m, paramCount, allowExtraParams)
  }

  /** The iterator loop that removes the methods whose parameter count does not fit the request. */
  method FilterByArity(methods: set<MethodInfo>, paramCount: nat, allowExtraParams: bool) returns (kept: set<MethodInfo>)
    ensures kept <= methods
    ensures forall m :: m in kept <==> m in methods && ArityFits(m, paramCount, allowExtraParams)
  {
    kept := methods;
    var unseen := methods;
    while unseen != {}
      invariant unseen <= methods
      invariant forall m :: m in kept <==> m in methods && (m in unseen || ArityFits(m, paramCount, allowExtraParams))
      decreases |unseen|
    {
      var m :| m in unseen;
      if (!allowExtraParams && Arity(m) != paramCount) || (allowExtraParams && Arity(m) > paramCount) {
        kept := kept - {m};
      }
      unseen := unseen - {m};
    }
  }

  /** The `@JsonRpcParamName` value of a parameter: the last such annotation wins, null without one. */
  function ParamName(anns: seq<Annotation>): (r: Option<string>)
    ensures r.None? <==> forall j :: 0 <= j < |anns| ==> !anns[j].ParamName?
    ensures r.Some? ==> exists j :: 0 <= j < |anns| && anns[j] == Annotation.ParamName(r.value)
  {
    if anns == [] then None
    else if anns[|anns| - 1].ParamName? then Some(anns[|anns| - 1].value)
    else
      var r := ParamName(anns[..|anns| - 1]);
      assert forall j :: 0 <= j < |anns| - 1 ==> anns[..|anns| - 1][j] == anns[j];
      r
  }

  /** The inner loop over one parameter's annotations (lines 372-380). */
  method FindParamName(anns: seq<Annotation>) returns (paramName: Option<string>)
    ensures paramName == ParamName(anns)
  {
    paramName := None;
    for j := 0 to |anns|
      invariant paramName == ParamName(anns[..j])
    {
      assert anns[..j + 1][..j] == anns[..j];
      if anns[j].ParamName? {
        paramName := Some(anns[j].value);
      }
    }
    assert anns[..|anns|] == anns;
  }

  /**
   * The named parameter nodes for a method, or None when one of its
   * parameters has no name; a named parameter the request lacks is
   * skipped.
   */
  function NamedArgs(paramAnns: seq<seq<Annotation>>, params: map<string, Json>): Option<seq<Json>>
  {
    if paramAnns == [] then Some([])
    else
      match NamedArgs(paramAnns[..|paramAnns| - 1], params)
      case None => None
      case Some(prefix) =>
        match ParamName(paramAnns[|paramAnns| - 1])
        case None => None
        case Some(n) => Some(prefix + (if n in params then [params[n]] else []))
  }

  /** A method binds by name exactly when each of its parameters is named; then one node per name the request holds, in parameter order. */
  lemma {:induction false} NamedArgsSpec(paramAnns: seq<seq<Annotation>>, params: map<string, Json>)
    ensures NamedArgs(paramAnns, params).Some? <==> forall i :: 0 <= i < |paramAnns| ==> ParamName(paramAnns[i]).Some?
    ensures NamedArgs(paramAnns, params).Some? ==>
      var args := NamedArgs(paramAnns, params).value;
      |args| <= |paramAnns|
      && (|args| == |paramAnns| <==> forall i :: 0 <= i < |paramAnns| ==> ParamName(paramAnns[i]).value in params)
  {
    if paramAnns != [] {
      var init := paramAnns[..|paramAnns| - 1];
      NamedArgsSpec(init, params);
      assert forall i :: 0 <= i < |init| ==> init[i] == paramAnns[i];
    }
  }

  /** The loop over one method's parameters (lines 366-391): whether all are named, and the nodes found. */
  method BindNamed(m: MethodInfo, params: map<string, Json>) returns (found: bool, namedParams: seq<Json>)
    ensures found <==> NamedArgs(m.paramAnnotations, params).Some?
    ensures found ==> namedParams == NamedArgs(m.paramAnnotations, params).value
  {
    var anns := m.paramAnnotations;
    found := true;
    namedParams := [];
    var i := 0;
    while i < |anns|
      invariant 0 <= i <= |anns|
      invariant NamedArgs(anns[..i], params) == Some(namedParams)
    {
      assert anns[..i + 1][..i] == anns[..i];
      var paramName := FindParamName(anns[i]);
      if paramName.None? {
        found := false;
        NamedArgsFailureExtends(anns, i + 1, params);
        return;
      }
      ghost var prev := namedParams;
      ghost var whole := anns[..i + 1];
      assert whole[..|whole| - 1] == anns[..i] && whole[|whole| - 1] == anns[i];
      if paramName.value in params {
        namedParams := namedParams + [params[paramName.value]];
      } else {
        assert prev + [] == prev;
      }
      assert NamedArgs(whole, params) == Some(prev + (if paramName.value in params then [params[paramName.value]] else []));
      i := i + 1;
    }
    assert anns[..i] == anns;
  }

  /** Once a prefix of the parameters fails to bind by name, the whole list does. */
  lemma {:induction false} NamedArgsFailureExtends(anns: seq<seq<Annotation>>, k: nat, params: map<string, Json>)
    requires k <= |anns| && NamedArgs(anns[..k], params).None?
    ensures NamedArgs(anns, params).None?
    decreases |anns| - k
  {
    if k < |anns| {
      assert anns[..k + 1][..k] == anns[..k];
      NamedArgsFailureExtends(anns, k + 1, params);
    } else {
      assert anns[..k] == anns;
    }
  }

  /** A method chosen for a request together with the parameter nodes it is called with. */
  datatype Call = Call(target: MethodInfo, args: seq<Json>)

  /** The loop over the methods in iteration order (lines 363-399): the first one whose parameters all bind by name. */
  function FirstNamed(order: HashOrder, methods: set<MethodInfo>, params: map<string, Json>): Option<Call>
    requires Picks(order)
    decreases |methods|
  {
    if methods == {} then None
    else
      var m := order.next(methods);
      var args := NamedArgs(m.paramAnnotations, params);
      if args.Some? then Some(Call(m, args.value)) else FirstNamed(order, methods - {m}, params)
  }

  /** Named binding fails only when no candidate binds, and otherwise picks a candidate that does. */
  lemma {:induction false} FirstNamedSpec(order: HashOrder, methods: set<MethodInfo>, params: map<string, Json>)
    requires Picks(order)
    ensures FirstNamed(order, methods, params).None? <==> forall m :: m in methods ==> NamedArgs(m.paramAnnotations, params).None?
    ensures FirstNamed(order, methods, params).Some? ==>
      var c := FirstNamed(order, methods, params).value;
      c.target in methods && NamedArgs(c.target.paramAnnotations, params) == Some(c.args)
    decreases |methods|
  {
    if methods != {} {
      var m := order.next(methods);
      FirstNamedSpec(order, methods - {m}, params);
    }
  }

  method ChooseNamed(order: HashOrder, methods: set<MethodInfo>, params: map<string, Json>) returns (call: Option<Call>)
    requires Picks(order)
    ensures call == FirstNamed(order, methods, params)
  {
    var unseen := methods;
    while unseen != {}
      invariant FirstNamed(order, unseen, params) == FirstNamed(order, methods, params)
      decreases |unseen|
    {
      var m := order.next(unseen);
      var found, namedParams := BindNamed(m, params);
      if found {
        return Some(Call(m, namedParams));
      }
      unseen := unseen - {m};
    }
    return None;
  }

  /**
   * The method and parameter nodes for a request whose name and arity
   * matched `methods`: positional (or no) parameters take the first method
   * and the leading nodes, trimmed to the arity when extra parameters are
   * allowed; named parameters go through `FirstNamed`.
   */
  function Choose(order: HashOrder, methods: set<MethodInfo>, paramsNode: Option<Json>, paramCount: nat, allowExtraParams: bool): Option<Call>
    requires Picks(order) && methods != {}
    requires paramsNode.Some? ==> paramCount == Size(paramsNode.value)
    requires paramsNode.None? ==> paramCount == 0
  {
    if paramCount == 0 || paramsNode.value.JArr? then
      var m := order.next(methods);
      var count := if allowExtraParams && paramCount > Arity(m) then Arity(m) else paramCount;
      Some(Call(m, if count == 0 then [] else paramsNode.value.items[..count]))
    else
      FirstNamed(order, methods, paramsNode.value.fields)
  }

  /** With positional parameters the chosen method receives exactly as many nodes as it declares parameters. */
  lemma PositionalArgsMatchArity(order: HashOrder, methods: set<MethodInfo>, paramsNode: Option<Json>, paramCount: nat, allowExtraParams: bool)
    requires Picks(order) && methods != {}
    requires paramsNode.Some? ==> paramCount == Size(paramsNode.value)
    requires paramsNode.None? ==> paramCount == 0
    requires forall m :: m in methods ==> ArityFits(m, paramCount, allowExtraParams)
    requires paramCount == 0 || paramsNode.value.JArr?
    ensures var c := Choose(order, methods, paramsNode, paramCount, allowExtraParams);
      c.Some? && c.value.target in methods && |c.value.args| == Arity(c.value.target)
      && (forall i :: 0 <= i < |c.value.args| ==> Some(c.value.args[i]) == At(paramsNode.value, i))
  {
  }

  // ----- invocation -----

  /** Why an invocation failed: a parameter did not convert (or the call itself was refused), or the method threw. */
  datatype InvokeFailure = Direct(t: Throwable) | InvocationTarget(target: Throwable)

  datatype InvokeResult = Returned(tree: Json) | Failed(failure: InvokeFailure)

  /** The exception that is mapped to an error: the target of an `InvocationTargetException`, otherwise the exception itself. */
  function Unwrapped(f: InvokeFailure): Throwable
  {
    match f
    case Direct(t) => t
    case InvocationTarget(t) => t
  }

  /** The conversion loop of `invoke`: parameter i is read from node i, which must exist. */
  function ConvertArgs(h: Handler, params: seq<Json>, types: seq<ClassRef>): Result<seq<JValue>>
    decreases |types|
  {
    if types == [] then Ok([])
    else if params == [] then Err(IndexOutOfBounds())
    else
      match h.convert(params[0], types[0])
      case Err(t) => Err(t)
      case Ok(v) =>
        match ConvertArgs(h, params[1..], types[1..])
        case Err(t) => Err(t)
        case Ok(rest) => Ok([v] + rest)
  }

  /** The converted values of the leading parameters put before the outcome of converting the rest. */
  function Prepend(done: seq<JValue>, rest: Result<seq<JValue>>): Result<seq<JValue>>
  {
    if rest.Ok? then Ok(done + rest.value) else rest
  }

  lemma ConvertStart(h: Handler, params: seq<Json>, types: seq<ClassRef>)
    ensures ConvertArgs(h, params, types) == Prepend([], ConvertArgs(h, params[0..], types[0..]))
  {
    assert params[0..] == params && types[0..] == types;
    var r := ConvertArgs(h, params, types);
    if r.Ok? {
      assert [] + r.value == r.value;
    }
  }

  /** One more converted parameter moves from the outstanding part to the converted prefix. */
  lemma ConvertStep(h: Handler, params: seq<Json>, types: seq<ClassRef>, i: nat, done: seq<JValue>)
    requires i < |types| && i < |params| && h.convert(params[i], types[i]).Ok?
    ensures Prepend(done, ConvertArgs(h, params[i..], types[i..]))
         == Prepend(done + [h.convert(params[i], types[i]).value], ConvertArgs(h, params[i + 1..], types[i + 1..]))
  {
    assert params[i..][1..] == params[i + 1..] && types[i..][1..] == types[i + 1..];
    assert params[i..][0] == params[i] && types[i..][0] == types[i];
    var v := h.convert(params[i], types[i]).value;
    var rest := ConvertArgs(h, params[i + 1..], types[i + 1..]);
    if rest.Ok? {
      assert done + ([v] + rest.value) == (done + [v]) + rest.value;
    }
  }

  /** Conversion stops at a missing node or at the first node that does not convert. */
  lemma ConvertStopsAt(h: Handler, params: seq<Json>, types: seq<ClassRef>, i: nat, done: seq<JValue>)
    requires i < |types| && i <= |params|
    requires i == |params| || h.convert(params[i], types[i]).Err?
    ensures Prepend(done, ConvertArgs(h, params[i..], types[i..]))
         == if i == |params| then Err(IndexOutOfBounds()) else Err(h.convert(params[i], types[i]).thrown)
  {
    if i < |params| {
      assert params[i..][0] == params[i] && types[i..][0] == types[i];
    }
  }

  lemma ConvertEnd(h: Handler, params: seq<Json>, types: seq<ClassRef>, done: seq<JValue>)
    requires |types| <= |params|
    ensures Prepend(done, ConvertArgs(h, params[|types|..], types[|types|..])) == Ok(done)
  {
    assert types[|types|..] == [];
    assert done + [] == done;
  }

  /** `invoke(m, params)`: converts the nodes and calls the handler; an argument array of the wrong length is refused by reflection. */
  function InvokeSpec(h: Handler, m: MethodInfo, params: seq<Json>): InvokeResult
  {
    match ConvertArgs(h, params, m.paramTypes)
    case Err(t) => Failed(Direct(t))
    case Ok(args) =>
      if |params| != Arity(m) then Failed(Direct(IllegalArgument(Some("wrong number of arguments"))))
      else
        match h.invoke(m, args)
        case Err(t) => Failed(InvocationTarget(t))
        case Ok(tree) => Returned(tree)
  }

  /** A method called with fewer parameter nodes than it declares never reaches the handler. */
  lemma {:induction false} MissingArgsFail(h: Handler, m: MethodInfo, params: seq<Json>)
    requires |params| < Arity(m)
    ensures InvokeSpec(h, m, params).Failed? && InvokeSpec(h, m, params).failure.Direct?
  {
    ConvertArgsShort(h, params, m.paramTypes);
  }

  lemma {:induction false} ConvertArgsShort(h: Handler, params: seq<Json>, types: seq<ClassRef>)
    requires |params| < |types|
    ensures ConvertArgs(h, params, types).Err?
    decreases |types|
  {
    if params != [] && h.convert(params[0], types[0]).Ok? {
      ConvertArgsShort(h, params[1..], types[1..]);
    }
  }

  /** The error mappings of the method's last `@JsonRpcErrors` annotation (lines 410-418), none without one. */
  function LastErrorMappings(anns: seq<Annotation>): (r: seq<ErrorMapping>)
    ensures (forall j :: 0 <= j < |anns| ==> !anns[j].RpcErrors?) ==> r == []
  {
    if anns == [] then []
    else if anns[|anns| - 1].RpcErrors? then anns[|anns| - 1].mappings
    else LastErrorMappings(anns[..|anns| - 1])
  }

  method ErrorMappingsOf(m: MethodInfo) returns (mappings: seq<ErrorMapping>)
    ensures mappings == LastErrorMappings(m.annotations)
  {
    var anns := m.annotations;
    mappings := [];
    for i := 0 to |anns|
      invariant mappings == LastErrorMappings(anns[..i])
    {
      assert anns[..i + 1][..i] == anns[..i];
      if anns[i].RpcErrors? {
        mappings := anns[i].mappings;
      }
    }
    assert anns[..|anns|] == anns;
  }

  /**
   * The error object for a throwable (lines 431-464): code, message and
   * data of the first matching mapping, the data defaulting to the
   * exception message when the mapping's is empty and left out when still
   * empty; code 0, the message and the class name when nothing matches.
   */
  function ErrorObject(mappings: seq<ErrorMapping>, e: Throwable): Json
  {
    match FirstMatch(mappings, e)
    case Some(em) =>
      var data := if em.data == "" then e.message else Some(em.data);
      var base := map["code" := JNum(em.code), "message" := JStr(em.message)];
      JObj(if data.Some? && data.value != "" then base["data" := JStr(data.value)] else base)
    case None =>
      JObj(map["code" := JNum(0), "message" := TextNode(e.message), "data" := JStr(e.className)])
  }

  /** What the error object carries: the mapped code and message with non-empty data, or code 0 with the class name. */
  lemma ErrorObjectSpec(mappings: seq<ErrorMapping>, e: Throwable)
    ensures var err := ErrorObject(mappings, e); err.JObj? && "code" in err.fields && "message" in err.fields
    ensures FirstMatch(mappings, e).None? ==>
      ErrorObject(mappings, e).fields == map["code" := JNum(0), "message" := TextNode(e.message), "data" := JStr(e.className)]
    ensures FirstMatch(mappings, e).Some? ==>
      var em := FirstMatch(mappings, e).value;
      var err := ErrorObject(mappings, e).fields;
      em in mappings && IsInstance(e, em.exception)
      && err["code"] == JNum(em.code) && err["message"] == JStr(em.message)
      && ("data" in err ==> err["data"].JStr? && err["data"].s != "")
      && (em.data != "" ==> "data" in err && err["data"] == JStr(em.data))
      && (em.data == "" && e.message.Some? && e.message.value != "" ==> "data" in err && err["data"] == JStr(e.message.value))
      && (em.data == "" && (e.message.None? || e.message.value == "") ==> "data" !in err)
  {
  }

  /** The loop over the error mappings (lines 431-464). */
  method BuildError(mappings: seq<ErrorMapping>, e: Throwable) returns (error: Json)
    ensures error == ErrorObject(mappings, e)
  {
    var fields: map<string, Json> := map[];
    var errorMapped := false;
    var i := 0;
    while i < |mappings|
      invariant 0 <= i <= |mappings|
      invariant forall k :: 0 <= k < i ==> !Matches(mappings[k], e)
      invariant fields == map[]
    {
      var em := mappings[i];
      if IsInstance(e, em.exception) {
        assert FirstMatchIndex(mappings, e) == Some(i);
        fields := fields["code" := JNum(em.code)];
        fields := fields["message" := JStr(em.message)];
        var data := Some(em.data);
        if em.data == "" {
          data := e.message;
        }
        if data.Some? && data.value != "" {
          fields := fields["data" := JStr(data.value)];
        }
        errorMapped := true;
        break;
      }
      i := i + 1;
    }
    if !errorMapped {
      fields := fields["code" := JNum(0)];
      fields := fields["message" := TextNode(e.message)];
      fields := fields["data" := JStr(e.className)];
    }
    error := JObj(fields);
  }

  // ----- responses -----

  /** `createErrorResponse(jsonRpc, id, code, message, data)`. */
  function ErrorResponse(jsonRpc: Option<string>, id: Option<string>, code: int, message: string, data: Option<Json>): (r: Json)
    ensures r.JObj? && r.fields.Keys == {"jsonrpc", "id", "error"}
    ensures r.fields["jsonrpc"] == TextNode(jsonRpc) && r.fields["id"] == TextNode(id)
    ensures r.fields["error"].JObj? && "code" in r.fields["error"].fields && "message" in r.fields["error"].fields
    ensures r.fields["error"].fields["code"] == JNum(code) && r.fields["error"].fields["message"] == JStr(message)
    ensures "data" in r.fields["error"].fields <==> data.Some?
  {
    var base := map["code" := JNum(code), "message" := JStr(message)];
    var error := if data.Some? then base["data" := data.value] else base;
    JObj(map["jsonrpc" := TextNode(jsonRpc), "id" := TextNode(id), "error" := JObj(error)])
  }

  /** The response to an invoked request (lines 473-480): the result, or the error object. */
  function Response(jsonRpc: Option<string>, id: string, outcome: InvokeResult, mappings: seq<ErrorMapping>): Json
  {
    var base := map["jsonrpc" := TextNode(jsonRpc), "id" := JStr(id)];
    match outcome
    case Returned(tree) => JObj(base["result" := tree])
    case Failed(f) => JObj(base["error" := ErrorObject(mappings, Unwrapped(f))])
  }

  // ----- handling a request -----

  /** How handling a node ended: normally, with an exception, or rethrowing an invocation failure. */
  datatype Outcome = Completed | Threw(t: Throwable) | Rethrew(cause: InvokeFailure)

  /** The values written and how handling ended. */
  datatype Run = Run(writes: seq<Json>, outcome: Outcome)

  datatype Config = Config(allowExtraParams: bool, rethrowExceptions: bool)

  /** The parameter count of a request (line 316). */
  function ParamCount(paramsNode: Option<Json>): nat
  {
    if paramsNode.Some? then Size(paramsNode.value) else 0
  }

  /** Handling an invoked request: nothing is written for a notification, and a failure is rethrown only after its response was written. */
  function InvocationRun(cfg: Config, h: Handler, call: Call, jsonRpc: Option<string>, id: Option<string>): Run
  {
    var outcome := InvokeSpec(h, call.target, call.args);
    if id.None? then Run([], Completed)
    else
      var response := Response(jsonRpc, id.value, outcome, LastErrorMappings(call.target.annotations));
      if outcome.Failed? && cfg.rethrowExceptions then Run([response], Rethrew(outcome.failure))
      else Run([response], Completed)
  }

  /** `handleObject(node, ops)`. */
  function ObjectRun(cfg: Config, cls: JavaClass, h: Handler, order: HashOrder, node: Json): Run
    requires node.JObj? && Picks(order)
  {
    if !Has(node, "jsonrpc") || !Has(node, "method") then
      Run([ErrorResponse(Some("jsonrpc"), Some("null"), -32600, "Invalid Request", None)], Completed)
    else
      var jsonRpc := NonNullText(Get(node, "jsonrpc"));
      var methodName := NonNullText(Get(node, "method"));
      var id := NonNullText(Get(node, "id"));
      var paramsNode := Get(node, "params");
      var paramCount := ParamCount(paramsNode);
      if methodName.None? then Run([], Threw(NullPointer()))
      else
        var methods := ArityFiltered(NamedMethods(cls, methodName.value), paramCount, cfg.allowExtraParams);
        if methods == {} then Run([ErrorResponse(jsonRpc, id, -32601, "Method not found", None)], Completed)
        else
          match Choose(order, methods, paramsNode, paramCount, cfg.allowExtraParams)
          case None => Run([ErrorResponse(jsonRpc, id, -32602, "Invalid method parameters.", None)], Completed)
          case Some(call) => InvocationRun(cfg, h, call, jsonRpc, id)
  }

  /** `handleNode(node, ops)`: objects are requests, arrays are batches, anything else is refused. */
  function NodeRun(cfg: Config, cls: JavaClass, h: Handler, order: HashOrder, node: Json): Run
    requires Picks(order)
    decreases node, 1
  {
    match node
    case JObj(_) => ObjectRun(cfg, cls, h, order, node)
    case JArr(_) => BatchRun(cfg, cls, h, order, node, 0)
    case _ => Run([], Threw(IllegalArgument(Some("Invalid JsonNode type: " + NodeClassName(node)))))
  }

  /** `handleArray(node, ops)` from element `i` on: the elements in order, stopping at the first exception. */
  function BatchRun(cfg: Config, cls: JavaClass, h: Handler, order: HashOrder, node: Json, i: nat): Run
    requires Picks(order) && node.JArr? && i <= |node.items|
    decreases node, 0, |node.items| - i
  {
    if i == |node.items| then Run([], Completed)
    else
      var first := NodeRun(cfg, cls, h, order, node.items[i]);
      if !first.outcome.Completed? then first
      else
        var rest := BatchRun(cfg, cls, h, order, node, i + 1);
        Run(first.writes + rest.writes, rest.outcome)
  }

  /** The shape of every value the server writes: an object with "jsonrpc", "id" and exactly one of "result" and "error". */
  predicate IsResponse(w: Json)
  {
    w.JObj? && "jsonrpc" in w.fields && "id" in w.fields && (("result" in w.fields) != ("error" in w.fields))
  }

  /** Handling one request object writes at most one value, and it is a response. */
  lemma ObjectRunWritesResponses(cfg: Config, cls: JavaClass, h: Handler, order: HashOrder, node: Json)
    requires node.JObj? && Picks(order)
    ensures var run := ObjectRun(cfg, cls, h, order, node);
      |run.writes| <= 1 && forall w :: w in run.writes ==> IsResponse(w)
  {
  }

  /** Every value written while handling any node, batches included, is a response. */
  lemma {:induction false} NodeRunWritesResponses(cfg: Config, cls: JavaClass, h: Handler, order: HashOrder, node: Json)
    requires Picks(order)
    ensures forall w :: w in NodeRun(cfg, cls, h, order, node).writes ==> IsResponse(w)
    decreases node, 1
  {
    match node
    case JObj(_) => ObjectRunWritesResponses(cfg, cls, h, order, node);
    case JArr(_) => BatchRunWritesResponses(cfg, cls, h, order, node, 0);
    case _ =>
  }

  lemma {:induction false} BatchRunWritesResponses(cfg: Config, cls: JavaClass, h: Handler, order: HashOrder, node: Json, i: nat)
    requires Picks(order) && node.JArr? && i <= |node.items|
    ensures forall w :: w in BatchRun(cfg, cls, h, order, node, i).writes ==> IsResponse(w)
    decreases node, 0, |node.items| - i
  {
    if i < |node.items| {
      NodeRunWritesResponses(cfg, cls, h, order, node.items[i]);
      if NodeRun(cfg, cls, h, order, node.items[i]).outcome.Completed? {
        BatchRunWritesResponses(cfg, cls, h, order, node, i + 1);
      }
    }
  }

  /**
   * A well-formed request is answered with its own "jsonrpc" text and id;
   * a request without an id (a notification) is answered only with an
   * error, never with a result.
   */
  lemma ResponsesEchoRequest(cfg: Config, cls: JavaClass, h: Handler, order: HashOrder, node: Json)
    requires node.JObj? && Picks(order) && Has(node, "jsonrpc") && Has(node, "method")
    ensures forall w :: w in ObjectRun(cfg, cls, h, order, node).writes ==>
      w.JObj? && "jsonrpc" in w.fields && "id" in w.fields
      && w.fields["jsonrpc"] == TextNode(NonNullText(Get(node, "jsonrpc")))
      && w.fields["id"] == TextNode(NonNullText(Get(node, "id")))
    ensures NonNullText(Get(node, "id")).None? ==>
      forall w :: w in ObjectRun(cfg, cls, h, order, node).writes ==> w.JObj? && "error" in w.fields && "result" !in w.fields
  {
  }

  /** A request without "jsonrpc" or "method" gets exactly one "Invalid Request" error (-32600). */
  lemma InvalidRequestAnswered(cfg: Config, cls: JavaClass, h: Handler, order: HashOrder, node: Json)
    requires node.JObj? && Picks(order)
    requires !Has(node, "jsonrpc") || !Has(node, "method")
    ensures ObjectRun(cfg, cls, h, order, node)
      == Run([ErrorResponse(Some("jsonrpc"), Some("null"), -32600, "Invalid Request", None)], Completed)
    ensures var w := ObjectRun(cfg, cls, h, order, node).writes[0];
      w.fields["jsonrpc"] == JStr("jsonrpc") && w.fields["id"] == JStr("null")
      && w.fields["error"].fields["code"] == JNum(-32600) && w.fields["error"].fields["message"] == JStr("Invalid Request")
      && "result" !in w.fields
  {
  }

  /**
   * When methods of the right name and arity exist but none can take the
   * parameters (named parameters without `@JsonRpcParamName`), exactly one
   * "Invalid method parameters." error (-32602) is written, carrying the
   * request's own id, and nothing is invoked.
   */
  lemma InvalidParamsAnswered(cfg: Config, cls: JavaClass, h: Handler, order: HashOrder, node: Json)
    requires node.JObj? && Picks(order) && Has(node, "jsonrpc") && Has(node, "method")
    requires NonNullText(Get(node, "method")).Some?
    requires ArityFiltered(NamedMethods(cls, NonNullText(Get(node, "method")).value), ParamCount(Get(node, "params")), cfg.allowExtraParams) != {}
    requires Choose(order, ArityFiltered(NamedMethods(cls, NonNullText(Get(node, "method")).value), ParamCount(Get(node, "params")), cfg.allowExtraParams),
      Get(node, "params"), ParamCount(Get(node, "params")), cfg.allowExtraParams).None?
    ensures ObjectRun(cfg, cls, h, order, node)
      == Run([ErrorResponse(NonNullText(Get(node, "jsonrpc")), NonNullText(Get(node, "id")), -32602, "Invalid method parameters.", None)], Completed)
  {
  }

  /**
   * A request with a null or missing id whose method was found and invoked
   * writes nothing at all, whether the handler returned or threw, and never
   * rethrows.
   */
  lemma InvokedNotificationSilent(cfg: Config, cls: JavaClass, h: Handler, order: HashOrder, node: Json)
    requires node.JObj? && Picks(order) && Has(node, "jsonrpc") && Has(node, "method")
    requires NonNullText(Get(node, "id")).None? && NonNullText(Get(node, "method")).Some?
    requires ArityFiltered(NamedMethods(cls, NonNullText(Get(node, "method")).value), ParamCount(Get(node, "params")), cfg.allowExtraParams) != {}
    requires Choose(order, ArityFiltered(NamedMethods(cls, NonNullText(Get(node, "method")).value), ParamCount(Get(node, "params")), cfg.allowExtraParams),
      Get(node, "params"), ParamCount(Get(node, "params")), cfg.allowExtraParams).Some?
    ensures ObjectRun(cfg, cls, h, order, node) == Run([], Completed)
  {
  }

  /**
   * Without extra parameters allowed, a request whose parameter count
   * differs from the arity of every method of that name gets "Method not
   * found" (-32601), and nothing is invoked.
   */
  lemma ArityMismatchIsMethodNotFound(cfg: Config, cls: JavaClass, h: Handler, order: HashOrder, node: Json)
    requires node.JObj? && Picks(order) && Has(node, "jsonrpc") && Has(node, "method")
    requires NonNullText(Get(node, "method")).Some?
    requires !cfg.allowExtraParams
    requires forall m :: m in cls.methods && m.name == NonNullText(Get(node, "method")).value ==>
      Arity(m) != ParamCount(Get(node, "params"))
    ensures var run := ObjectRun(cfg, cls, h, order, node);
      run.outcome == Completed && |run.writes| == 1
      && run.writes[0].fields["error"].fields["code"] == JNum(-32601)
  {
    var name := NonNullText(Get(node, "method")).value;
    var methods := ArityFiltered(NamedMethods(cls, name), ParamCount(Get(node, "params")), false);
    assert methods == {};
  }

  /** Only a request with an id whose invocation failed can rethrow, and only when rethrowing is on; its error response is written first. */
  lemma RethrowFollowsErrorResponse(cfg: Config, cls: JavaClass, h: Handler, order: HashOrder, node: Json)
    requires node.JObj? && Picks(order)
    requires ObjectRun(cfg, cls, h, order, node).outcome.Rethrew?
    ensures cfg.rethrowExceptions
    ensures NonNullText(Get(node, "id")).Some?
    ensures var run := ObjectRun(cfg, cls, h, order, node);
      |run.writes| == 1 && "error" in run.writes[0].fields
  {
  }

  /** A batch whose elements all complete writes the responses of its elements in order. */
  lemma {:induction false} BatchConcatenates(cfg: Config, cls: JavaClass, h: Handler, order: HashOrder, node: Json, i: nat)
    requires Picks(order) && node.JArr? && i <= |node.items|
    requires forall k :: i <= k < |node.items| ==> NodeRun(cfg, cls, h, order, node.items[k]).outcome.Completed?
    ensures BatchRun(cfg, cls, h, order, node, i).outcome.Completed?
    ensures i < |node.items| ==>
      BatchRun(cfg, cls, h, order, node, i).writes
        == NodeRun(cfg, cls, h, order, node.items[i]).writes + BatchRun(cfg, cls, h, order, node, i + 1).writes
    decreases |node.items| - i
  {
    if i < |node.items| {
      BatchConcatenates(cfg, cls, h, order, node, i + 1);
    }
  }

  /** The first element of a batch that raises an exception ends the batch with that exception. */
  lemma {:induction false} BatchStopsAtException(cfg: Config, cls: JavaClass, h: Handler, order: HashOrder, node: Json, i: nat, k: nat)
    requires Picks(order) && node.JArr? && i <= k < |node.items|
    requires forall j :: i <= j < k ==> NodeRun(cfg, cls, h, order, node.items[j]).outcome.Completed?
    requires !NodeRun(cfg, cls, h, order, node.items[k]).outcome.Completed?
    ensures BatchRun(cfg, cls, h, order, node, i).outcome == NodeRun(cfg, cls, h, order, node.items[k]).outcome
    decreases k - i
  {
    if i < k {
      BatchStopsAtException(cfg, cls, h, order, node, i + 1, k);
    }
  }

  class Server {
    var rethrowExceptions: bool
    var allowExtraParams: bool
    const handler: Handler
    const handlerClass: JavaClass
    const remoteInterface: Option<JavaClass>
    const cache: ReflectionCache

    ghost predicate Valid()
      reads this, cache
    {
      cache.Valid() && cache.Knows(HandlerClass())
    }

    /** `new JsonRpcServer(mapper, handler, remoteInterface)`: exceptions are not rethrown and extra parameters are refused. */
    constructor (handler: Handler, handlerClass: JavaClass, remoteInterface: Option<JavaClass>, cache: ReflectionCache)
      requires cache.Valid()
      requires cache.Knows(if remoteInterface.Some? then remoteInterface.value else handlerClass)
      ensures Valid()
      ensures this.handler == handler && this.handlerClass == handlerClass
      ensures this.remoteInterface == remoteInterface && this.cache == cache
      ensures !rethrowExceptions && !allowExtraParams
    {
      this.handler := handler;
      this.handlerClass := handlerClass;
      this.remoteInterface := remoteInterface;
      this.cache := cache;
      rethrowExceptions := false;
      allowExtraParams := false;
    }

    /** `getHandlerClass()`: the remote interface when one is given, the handler's class otherwise. */
    function HandlerClass(): (c: JavaClass)
      reads this
      ensures remoteInterface.Some? ==> c == remoteInterface.value
      ensures remoteInterface.None? ==> c == handlerClass
    {
      if remoteInterface.Some? then remoteInterface.value else handlerClass
    }

    function Cfg(): Config
      reads this
    {
      Config(allowExtraParams, rethrowExceptions)
    }

    method SetRethrowExceptions(rethrowExceptions: bool)
      modifies this
      ensures this.rethrowExceptions == rethrowExceptions && allowExtraParams == old(allowExtraParams)
    {
      this.rethrowExceptions := rethrowExceptions;
    }

    method SetAllowExtraParams(allowExtraParams: bool)
      modifies this
      ensures this.allowExtraParams == allowExtraParams && rethrowExceptions == old(rethrowExceptions)
    {
      this.allowExtraParams := allowExtraParams;
    }

    /** `handle(ips, ops)`: reads one value and handles it; the mapper raises `EOFException` at the end of input. */
    method Handle(input: Input, ops: JsonSink, order: HashOrder) returns (outcome: Outcome)
      requires Valid() && Picks(order)
      modifies ops, cache
      ensures Valid()
      ensures input.Unparseable? ==> outcome == Threw(JacksonParseError()) && ops.written == old(ops.written)
      ensures input.EndOfInput? ==> outcome == Threw(NoContent()) && ops.written == old(ops.written)
      ensures input.Parsed? ==>
        ops.written == old(ops.written) + NodeRun(Cfg(), HandlerClass(), handler, order, input.node).writes
        && outcome == NodeRun(Cfg(), HandlerClass(), handler, order, input.node).outcome
    {
      match input
      case Unparseable => return Threw(JacksonParseError());
      case EndOfInput => return Threw(NoContent());
      case Parsed(node) => outcome := HandleNode(node, ops, order);
    }

    /** `handleNode(node, ops)`. */
    method HandleNode(node: Json, ops: JsonSink, order: HashOrder) returns (outcome: Outcome)
      requires Valid() && Picks(order)
      modifies ops, cache
      ensures Valid()
      ensures ops.written == old(ops.written) + NodeRun(Cfg(), HandlerClass(), handler, order, node).writes
      ensures outcome == NodeRun(Cfg(), HandlerClass(), handler, order, node).outcome
      decreases node, 1
    {
      match node
      case JObj(_) => outcome := HandleObject(node, ops, order);
      case JArr(_) => outcome := HandleArray(node, ops, order);
      case _ => return Threw(IllegalArgument(Some("Invalid JsonNode type: " + NodeClassName(node))));
    }

    /** `handleArray(node, ops)`: each element in turn; an exception leaves the rest unhandled. */
    method HandleArray(node: Json, ops: JsonSink, order: HashOrder) returns (outcome: Outcome)
      requires Valid() && Picks(order) && node.JArr?
      modifies ops, cache
      ensures Valid()
      ensures ops.written == old(ops.written) + BatchRun(Cfg(), HandlerClass(), handler, order, node, 0).writes
      ensures outcome == BatchRun(Cfg(), HandlerClass(), handler, order, node, 0).outcome
      decreases node, 0
    {
      ghost var whole := BatchRun(Cfg(), HandlerClass(), handler, order, node, 0);
      for i := 0 to |node.items|
        invariant Valid()
        invariant old(ops.written) + whole.writes == ops.written + BatchRun(Cfg(), HandlerClass(), handler, order, node, i).writes
        invariant whole.outcome == BatchRun(Cfg(), HandlerClass(), handler, order, node, i).outcome
      {
        ghost var before := ops.written;
        var o := HandleNode(node.items[i], ops, order);
        if !o.Completed? {
          return o;
        }
        assert ops.written + BatchRun(Cfg(), HandlerClass(), handler, order, node, i + 1).writes
          == before + BatchRun(Cfg(), HandlerClass(), handler, order, node, i).writes;
      }
      return Completed;
    }

    /** `handleObject(node, ops)`. */
    method HandleObject(node: Json, ops: JsonSink, order: HashOrder) returns (outcome: Outcome)
      requires Valid() && Picks(order) && node.JObj?
      modifies ops, cache
      ensures Valid()
      ensures ops.written == old(ops.written) + ObjectRun(Cfg(), HandlerClass(), handler, order, node).writes
      ensures outcome == ObjectRun(Cfg(), HandlerClass(), handler, order, node).outcome
    {
      if !Has(node, "jsonrpc") || !Has(node, "method") {
        ops.Write(ErrorResponse(Some("jsonrpc"), Some("null"), -32600, "Invalid Request", None));
        return Completed;
      }
      var jsonRpc := NonNullText(Get(node, "jsonrpc"));
      var methodName := NonNullText(Get(node, "method"));
      var id := NonNullText(Get(node, "id"));
      var paramsNode := Get(node, "params");
      var paramCount := ParamCount(paramsNode);

      var found := cache.FindMethods(HandlerClass(), methodName);
      if found.Err? {
        return Threw(found.thrown);
      }
      var methods := FilterByArity(found.value, paramCount, allowExtraParams);
      assert methods == ArityFiltered(NamedMethods(HandlerClass(), methodName.value), paramCount, allowExtraParams);
      if methods == {} {
        ops.Write(ErrorResponse(jsonRpc, id, -32601, "Method not found", None));
        return Completed;
      }

      var call := ChooseCall(order, methods, paramsNode, paramCount);
      if call.None? {
        ops.Write(ErrorResponse(jsonRpc, id, -32602, "Invalid method parameters.", None));
        return Completed;
      }
      outcome := InvokeAndRespond(call.value, jsonRpc, id, ops);
    }

    /** Lines 343-400: the method to call and its parameter nodes. */
    method ChooseCall(order: HashOrder, methods: set<MethodInfo>, paramsNode: Option<Json>, paramCount: nat) returns (call: Option<Call>)
      requires Picks(order) && methods != {}
      requires paramsNode.Some? ==> paramCount == Size(paramsNode.value)
      requires paramsNode.None? ==> paramCount == 0
      ensures call == Choose(order, methods, paramsNode, paramCount, allowExtraParams)
    {
      if paramCount == 0 || paramsNode.value.JArr? {
        var m := order.next(methods);
        var count := paramCount;
        if allowExtraParams && count > Arity(m) {
          count := Arity(m);
        }
        var paramNodes: seq<Json> := [];
        for i := 0 to count
          invariant count > 0 ==> paramNodes == paramsNode.value.items[..i]
          invariant count == 0 ==> paramNodes == []
        {
          paramNodes := paramNodes + [At(paramsNode.value, i).value];
        }
        call := Some(Call(m, paramNodes));
      } else {
        call := ChooseNamed(order, methods, paramsNode.value.fields);
      }
    }

    /** Lines 409-491: invoke, build the result or error, write it unless the request is a notification, rethrow when asked to. */
    method InvokeAndRespond(call: Call, jsonRpc: Option<string>, id: Option<string>, ops: JsonSink) returns (outcome: Outcome)
      modifies ops
      ensures ops.written == old(ops.written) + InvocationRun(Cfg(), handler, call, jsonRpc, id).writes
      ensures outcome == InvocationRun(Cfg(), handler, call, jsonRpc, id).outcome
    {
      var m := call.target;
      var errorMappings := ErrorMappingsOf(m);
      var result := Invoke(m, call.args);
      var error: Option<Json> := None;
      if result.Failed? {
        var e := Unwrapped(result.failure);
        var err := BuildError(errorMappings, e);
        error := Some(err);
      }
      if id.None? {
        return Completed;
      }
      var fields := map["jsonrpc" := TextNode(jsonRpc), "id" := JStr(id.value)];
      if error.None? {
        fields := fields["result" := result.tree];
      } else {
        fields := fields["error" := error.value];
      }
      ops.Write(JObj(fields));
      if result.Failed? && rethrowExceptions {
        return Rethrew(result.failure);
      }
      return Completed;
    }

    /** `invoke(m, params)`: the conversion loop over an argument array, then the call. */
    method Invoke(m: MethodInfo, params: seq<Json>) returns (r: InvokeResult)
      ensures r == InvokeSpec(handler, m, params)
    {
      var convertedParams := new JValue[|params|](_ => Null);
      var types := m.paramTypes;
      ConvertStart(handler, params, types);
      for i := 0 to |types|
        invariant i <= |params|
        invariant ConvertArgs(handler, params, types) == Prepend(convertedParams[..i], ConvertArgs(handler, params[i..], types[i..]))
      {
        if i >= |params| {
          ConvertStopsAt(handler, params, types, i, convertedParams[..i]);
          return Failed(Direct(IndexOutOfBounds()));
        }
        var v := handler.convert(params[i], types[i]);
        if v.Err? {
          ConvertStopsAt(handler, params, types, i, convertedParams[..i]);
          return Failed(Direct(v.thrown));
        }
        ghost var before := convertedParams[..i];
        ConvertStep(handler, params, types, i, before);
        convertedParams[i] := v.value;
        assert convertedParams[..i + 1] == before + [v.value];
      }
      ConvertEnd(handler, params, types, convertedParams[..|types|]);
      if |params| != |types| {
        return Failed(Direct(IllegalArgument(Some("wrong number of arguments"))));
      }
      assert convertedParams[..] == convertedParams[..|types|];
      var result := handler.invoke(m, convertedParams[..]);
      if result.Err? {
        return Failed(InvocationTarget(result.thrown));
      }
      return Returned(result.value);
    }
  }
}
