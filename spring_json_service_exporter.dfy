/**
 * The Spring `JsonServiceExporter` built on the `JsonEngine` abstraction
 * (here the Jackson engine): it reads one request or a batch, answers
 * each request with a `JsonRpcResponse` and writes a single response, an
 * array of responses for a batch, or nothing.
 */
module SpringExporter {
  import opened Common
  import opened JsonTree
  import opened Failures
  import opened JavaModel
  import opened JacksonEngine
  import opened JsonRpcResponse
  import Assertions

  /** The exported service: a call with bound arguments returns the tree of its result, or throws. */
  datatype Service = Service(invoke: (MethodInfo, seq<JValue>) -> Result<Json>)

  /** `MethodAndParams`: the chosen method and its bound arguments. */
  datatype Invocation = Invocation(target: MethodInfo, params: seq<JValue>)

  /** How arguments are looked up: by position, or by the names declared on the implementation or the interface. */
  datatype Lookup = ByIndex | ByName(implMethods: map<MethodInfo, MethodInfo>)

  const ParseErrorCode: int := -32700
  const MethodNotFoundCode: int := -32601
  const InvalidParamsCode: int := -32602
  const InternalErrorCode: int := -32603

  // ----- parameter names -----

  /** `getParamNameByAnnotation`: the value of the first `JsonRpcParamName` among `anns`. */
  function FirstParamName(anns: seq<Annotation>): (r: Option<string>)
    ensures r.None? <==> forall j :: 0 <= j < |anns| ==> !anns[j].ParamName?
    ensures r.Some? ==> exists j :: 0 <= j < |anns| && anns[j] == Annotation.ParamName(r.value)
                                    && forall i :: 0 <= i < j ==> !anns[i].ParamName?
  {
    if anns == [] then None
    else if anns[0].ParamName? then Some(anns[0].value)
    else
      var r := FirstParamName(anns[1..]);
      assert forall j :: 0 <= j < |anns| - 1 ==> anns[1..][j] == anns[j + 1];
      if r.Some? then
        var j :| 0 <= j < |anns[1..]| && anns[1..][j] == Annotation.ParamName(r.value)
                 && forall i :: 0 <= i < j ==> !anns[1..][i].ParamName?;
        assert anns[j + 1] == Annotation.ParamName(r.value);
        r
      else r
  }

  method GetParamNameByAnnotation(anns: seq<Annotation>) returns (r: Option<string>)
    ensures r == FirstParamName(anns)
  {
    for i := 0 to |anns|
      invariant FirstParamName(anns) == FirstParamName(anns[i..])
    {
      assert anns[i..][1..] == anns[i + 1..];
      if anns[i].ParamName? {
        return Some(anns[i].value);
      }
    }
    return None;
  }

  /**
   * The name under which parameter `i` is looked up: the implementation's
   * annotation first, then the interface's; None when neither names it or
   * when an annotation array is too short (which the loop's catch turns
   * into a rejection).
   */
  function NamedParam(implAnns: seq<seq<Annotation>>, ifaceAnns: seq<seq<Annotation>>, i: nat): (r: Option<string>)
    ensures i < |implAnns| && FirstParamName(implAnns[i]).Some? ==> r == FirstParamName(implAnns[i])
    ensures r.Some? ==> i < |implAnns| && (FirstParamName(implAnns[i]) == r || (i < |ifaceAnns| && FirstParamName(ifaceAnns[i]) == r))
  {
    if i >= |implAnns| then None
    else
      var name := FirstParamName(implAnns[i]);
      if name.Some? then name
      else if i >= |ifaceAnns| then None
      else FirstParamName(ifaceAnns[i])
  }

  // ----- binding arguments -----

  /** The parameter node argument `i` is read from, or None when reading it throws. */
  function ParamNode(lookup: Lookup, request: Json, m: MethodInfo, i: nat): Option<Option<Json>>
    requires lookup.ByName? ==> m in lookup.implMethods
  {
    match lookup
    case ByIndex =>
      var p := GetParameterByIndex(request, i);
      if p.Err? then None else Some(p.value)
    case ByName(implMethods) =>
      var name := NamedParam(implMethods[m].paramAnnotations, m.paramAnnotations, i);
      if name.None? then None
      else
        var p := GetParameterByName(request, name.value);
        if p.Err? then None else Some(p.value)
  }

  /** Argument `i` of `m` converted to its parameter type, or None when anything on the way throws. */
  function Argument(lookup: Lookup, codec: Codec, request: Json, m: MethodInfo, i: nat): Option<JValue>
    requires lookup.ByName? ==> m in lookup.implMethods
    requires i < |m.paramTypes|
  {
    var node := ParamNode(lookup, request, m, i);
    if node.None? then None
    else
      var v := JsonToObject(codec, node.value, m.paramTypes[i]);
      if v.Err? then None else Some(v.value)
  }

  /** The first `n` arguments of `m`, or None as soon as one of them fails. */
  function Arguments(lookup: Lookup, codec: Codec, request: Json, m: MethodInfo, n: nat): (r: Option<seq<JValue>>)
    requires lookup.ByName? ==> m in lookup.implMethods
    requires n <= |m.paramTypes|
    ensures r.Some? <==> forall i :: 0 <= i < n ==> Argument(lookup, codec, request, m, i).Some?
    ensures r.Some? ==> |r.value| == n && forall i :: 0 <= i < n ==> Argument(lookup, codec, request, m, i) == Some(r.value[i])
  {
    if n == 0 then Some([])
    else
      var init := Arguments(lookup, codec, request, m, n - 1);
      var last := Argument(lookup, codec, request, m, n - 1);
      if init.None? || last.None? then None else Some(init.value + [last.value])
  }

  /** The body of the inner `try`, up to the conversion: where argument `i` is read from. */
  method ReadParamNode(lookup: Lookup, request: Json, m: MethodInfo, i: nat) returns (node: Option<Option<Json>>)
    requires lookup.ByName? ==> m in lookup.implMethods
    ensures node == ParamNode(lookup, request, m, i)
  {
    match lookup {
      case ByIndex =>
        var p := GetParameterByIndex(request, i);
        if p.Err? {
          return None;
        }
        return Some(p.value);
      case ByName(implMethods) =>
        var serviceAnnotations := implMethods[m].paramAnnotations;
        if i >= |serviceAnnotations| {
          return None;
        }
        var name := GetParamNameByAnnotation(serviceAnnotations[i]);
        if name.None? {
          if i >= |m.paramAnnotations| {
            return None;
          }
          name := GetParamNameByAnnotation(m.paramAnnotations[i]);
        }
        if name.None? {
          return None;
        }
        var p := GetParameterByName(request, name.value);
        if p.Err? {
          return None;
        }
        return Some(p.value);
    }
  }

  /** The inner loop of `findIndexedMethodAndParams` / `findNamedMethodAndParams` for one candidate. */
  method BindArguments(lookup: Lookup, codec: Codec, request: Json, m: MethodInfo) returns (matched: bool, params: seq<JValue>)
    requires lookup.ByName? ==> m in lookup.implMethods
    ensures matched <==> Arguments(lookup, codec, request, m, |m.paramTypes|).Some?
    ensures matched ==> params == Arguments(lookup, codec, request, m, |m.paramTypes|).value
  {
    params := [];
    for i := 0 to |m.paramTypes|
      invariant Arguments(lookup, codec, request, m, i) == Some(params)
    {
      var node := ReadParamNode(lookup, request, m, i);
      if node.None? {
        assert Argument(lookup, codec, request, m, i).None?;
        return false, params;
      }
      var v := JsonToObject(codec, node.value, m.paramTypes[i]);
      if v.Err? {
        assert Argument(lookup, codec, request, m, i).None?;
        return false, params;
      }
      params := params + [v.value];
    }
    return true, params;
  }

  /**
   * The candidate the `for (Method method : methods)` loop settles on:
   * the set's iteration order is `order`, and the first candidate all of
   * whose arguments bind wins.
   */
  function FindInvocation(order: HashOrder, lookup: Lookup, codec: Codec, request: Json, methods: set<MethodInfo>): (r: Option<Invocation>)
    requires Picks(order)
    requires lookup.ByName? ==> methods <= lookup.implMethods.Keys
    decreases |methods|
  {
    if methods == {} then None
    else
      var m := order.next(methods);
      var args := Arguments(lookup, codec, request, m, |m.paramTypes|);
      if args.Some? then Some(Invocation(m, args.value))
      else FindInvocation(order, lookup, codec, request, methods - {m})
  }

  /** No invocation is found exactly when no candidate binds; a found one is a candidate with all its arguments bound. */
  lemma {:induction false} FindInvocationSpec(order: HashOrder, lookup: Lookup, codec: Codec, request: Json, methods: set<MethodInfo>)
    requires Picks(order)
    requires lookup.ByName? ==> methods <= lookup.implMethods.Keys
    ensures var r := FindInvocation(order, lookup, codec, request, methods);
      (r.None? <==> forall m :: m in methods ==> Arguments(lookup, codec, request, m, |m.paramTypes|).None?)
      && (r.Some? ==> r.value.target in methods
                      && Arguments(lookup, codec, request, r.value.target, |r.value.target.paramTypes|) == Some(r.value.params))
    decreases |methods|
  {
    if methods != {} {
      FindInvocationSpec(order, lookup, codec, request, methods - {order.next(methods)});
    }
  }

  /** `findIndexedMethodAndParams` and `findNamedMethodAndParams`. */
  method FindMethodAndParams(order: HashOrder, lookup: Lookup, codec: Codec, request: Json, methods: set<MethodInfo>) returns (r: Option<Invocation>)
    requires Picks(order)
    requires lookup.ByName? ==> methods <= lookup.implMethods.Keys
    ensures r == FindInvocation(order, lookup, codec, request, methods)
  {
    var unseen := methods;
    while unseen != {}
      invariant unseen <= methods
      invariant FindInvocation(order, lookup, codec, request, unseen) == FindInvocation(order, lookup, codec, request, methods)
      decreases |unseen|
    {
      var m := order.next(unseen);
      var matched, params := BindArguments(lookup, codec, request, m);
      if matched {
        return Some(Invocation(m, params));
      }
      unseen := unseen - {m};
    }
    return None;
  }

  // ----- one request -----

  /** The interface methods with the requested name and exactly as many parameters as the request has. */
  function Candidates(interfaceMethods: set<MethodInfo>, name: Option<string>, count: nat): set<MethodInfo>
  {
    set m | m in interfaceMethods && Some(m.name) == name && Arity(m) == count
  }

  method FilterCandidates(interfaceMethods: set<MethodInfo>, name: Option<string>, count: nat) returns (methods: set<MethodInfo>)
    ensures methods == Candidates(interfaceMethods, name, count)
  {
    methods := {};
    var unseen := interfaceMethods;
    while unseen != {}
      invariant unseen <= interfaceMethods
      invariant methods == Candidates(interfaceMethods - unseen, name, count)
      decreases |unseen|
    {
      var m :| m in unseen;
      if Some(m.name) == name && |m.paramTypes| == count {
        methods := methods + {m};
      }
      unseen := unseen - {m};
    }
    assert interfaceMethods - unseen == interfaceMethods;
  }

  /** The error response for what the service threw: a `JsonServiceException` keeps its data and negates its code. */
  function ThrownResponse(t: Throwable, id: Option<string>): (r: ResponseValue)
    ensures t.detail.ServiceError? ==> r == ErrorValue(-t.detail.code, t.message, t.detail.data, id)
    ensures !t.detail.ServiceError? ==> r == ErrorValue(InternalErrorCode, Some("Internal Error: " + JavaText(t.message)), None, id)
  {
    if t.detail.ServiceError? then ErrorValue(-t.detail.code, t.message, t.detail.data, id)
    else ErrorValue(InternalErrorCode, Some("Internal Error: " + JavaText(t.message)), None, id)
  }

  /**
   * `handleSingleRequest`: None for a successful notification; an
   * exception from the engine propagates.
   */
  function SingleResponse(order: HashOrder, service: Service, codec: Codec, interfaceMethods: set<MethodInfo>,
                          implMethods: map<MethodInfo, MethodInfo>, request: Json): Result<Option<ResponseValue>>
    requires Picks(order) && interfaceMethods <= implMethods.Keys
  {
    var name := GetMethodNameFromRpcRequest(request);
    if name.Err? then Err(name.thrown)
    else
      var notification := IsNotification(request);
      var id := if notification then Ok(None) else GetIdFromRpcRequest(request);
      if id.Err? then Err(id.thrown)
      else
        var count := GetParameterCountFromRpcRequest(request);
        if count.Err? then Err(count.thrown)
        else
          var methods := Candidates(interfaceMethods, name.value, count.value);
          if methods == {} then
            Ok(Some(ErrorValue(MethodNotFoundCode, Some("Method Not Found: " + JavaText(name.value)), None, id.value)))
          else
            var lookup := if IsRpcRequestParametersIndexed(request).value then ByIndex else ByName(implMethods);
            var invocation := FindInvocation(order, lookup, codec, request, methods);
            if invocation.None? then
              Ok(Some(ErrorValue(InvalidParamsCode, Some("Invalid Parameters"), None, id.value)))
            else
              match service.invoke(invocation.value.target, invocation.value.params)
              case Ok(result) => Ok(if notification then None else Some(ResultValue(result, id.value)))
              case Err(t) => Ok(Some(ThrownResponse(Surfaced(t), id.value)))
  }

  /** The responses of the batch elements in order, the null ones dropped; the first exception aborts. */
  function BatchResponses(order: HashOrder, service: Service, codec: Codec, interfaceMethods: set<MethodInfo>,
                          implMethods: map<MethodInfo, MethodInfo>, items: seq<Json>): (r: Result<seq<ResponseValue>>)
    requires Picks(order) && interfaceMethods <= implMethods.Keys
    ensures r.Ok? ==> |r.value| <= |items|
  {
    if items == [] then Ok([])
    else
      var init := BatchResponses(order, service, codec, interfaceMethods, implMethods, items[..|items| - 1]);
      if init.Err? then init
      else
        var last := SingleResponse(order, service, codec, interfaceMethods, implMethods, items[|items| - 1]);
        if last.Err? then Err(last.thrown)
        else if last.value.None? then init
        else Ok(init.value + [last.value.value])
  }

  /** `handleRpcRequest`: a batch's responses, or the zero or one response of a single request. */
  function RpcResponses(order: HashOrder, service: Service, codec: Codec, interfaceMethods: set<MethodInfo>,
                        implMethods: map<MethodInfo, MethodInfo>, request: Json): Result<seq<ResponseValue>>
    requires Picks(order) && interfaceMethods <= implMethods.Keys
  {
    if request.JArr? then BatchResponses(order, service, codec, interfaceMethods, implMethods, request.items)
    else
      var single := SingleResponse(order, service, codec, interfaceMethods, implMethods, request);
      if single.Err? then Err(single.thrown)
      else if single.value.None? then Ok([])
      else Ok([single.value.value])
  }

  /** What the exporter writes: nothing, one response object, or an array of them. */
  datatype Body = NoBody | Single(response: ResponseValue) | Batch(responses: seq<ResponseValue>)

  /** The end of `handleRequest`: a status and a body, or a `ServletException` around the cause. */
  datatype Outcome = Written(status: int, body: Body) | ServletFailure(cause: Throwable)

  /** `handleRequest`, from the bytes of the request (parsed or not) to what is written. */
  function HandleRequestSpec(order: HashOrder, service: Service, codec: Codec, interfaceMethods: set<MethodInfo>,
                             implMethods: map<MethodInfo, MethodInfo>, input: Input): Outcome
    requires Picks(order) && interfaceMethods <= implMethods.Keys
  {
    var read := ReadJson(input);
    if read.Err? then Written(500, Single(ErrorValue(ParseErrorCode, Some("Parse Error"), None, None)))
    else if read.value.None? then Written(200, NoBody)
    else
      var request := read.value.value;
      var responses := RpcResponses(order, service, codec, interfaceMethods, implMethods, request);
      if responses.Err? then ServletFailure(responses.thrown)
      else if request.JArr? then Written(200, Batch(responses.value))
      else if |responses.value| == 1 then Written(200, Single(responses.value[0]))
      else Written(200, NoBody)
  }

  // ----- properties -----

  /** An unreadable body is answered with exactly one -32700 "Parse Error" response with a null id, status 500. */
  lemma ParseErrorAnswered(order: HashOrder, service: Service, codec: Codec, interfaceMethods: set<MethodInfo>,
                           implMethods: map<MethodInfo, MethodInfo>)
    requires Picks(order) && interfaceMethods <= implMethods.Keys
    ensures var out := HandleRequestSpec(order, service, codec, interfaceMethods, implMethods, Unparseable);
      out.Written? && out.status == 500 && out.body.Single?
      && out.body.response.error == Some(RpcError(-32700, Some("Parse Error"), None)) && out.body.response.id.None?
  {
  }

  /** A batch that raises nothing is always answered with an array, possibly empty. */
  lemma BatchWritesArray(order: HashOrder, service: Service, codec: Codec, interfaceMethods: set<MethodInfo>,
                         implMethods: map<MethodInfo, MethodInfo>, items: seq<Json>)
    requires Picks(order) && interfaceMethods <= implMethods.Keys
    ensures var out := HandleRequestSpec(order, service, codec, interfaceMethods, implMethods, Parsed(JArr(items)));
      out.Written? ==> out.status == 200 && out.body == Batch(BatchResponses(order, service, codec, interfaceMethods, implMethods, items).value)
  {
  }

  /**
   * A request answers None (nothing written for it) exactly when it is a
   * notification whose method was found, bound and returned normally.
   */
  lemma {:induction false} SilentOnlyForNotifications(order: HashOrder, service: Service, codec: Codec, interfaceMethods: set<MethodInfo>,
                                   implMethods: map<MethodInfo, MethodInfo>, request: Json)
    requires Picks(order) && interfaceMethods <= implMethods.Keys
    ensures SingleResponse(order, service, codec, interfaceMethods, implMethods, request) == Ok(None) ==>
      IsNotification(request)
      && exists inv :: inv in InvocationsOf(order, codec, interfaceMethods, implMethods, request) && service.invoke(inv.target, inv.params).Ok?
    ensures forall inv ::
      (IsNotification(request) && InvocationsOf(order, codec, interfaceMethods, implMethods, request) == {inv}
       && service.invoke(inv.target, inv.params).Ok?) ==>
      SingleResponse(order, service, codec, interfaceMethods, implMethods, request) == Ok(None)
  {
  }

  /** The invocation a request leads to, when it gets that far (as a set: empty or a singleton). */
  function InvocationsOf(order: HashOrder, codec: Codec, interfaceMethods: set<MethodInfo>,
                         implMethods: map<MethodInfo, MethodInfo>, request: Json): set<Invocation>
    requires Picks(order) && interfaceMethods <= implMethods.Keys
  {
    var name := GetMethodNameFromRpcRequest(request);
    var count := GetParameterCountFromRpcRequest(request);
    if name.Err? || count.Err? then {}
    else
      var methods := Candidates(interfaceMethods, name.value, count.value);
      var lookup := if IsRpcRequestParametersIndexed(request).value then ByIndex else ByName(implMethods);
      var invocation := FindInvocation(order, lookup, codec, request, methods);
      if invocation.None? then {} else {invocation.value}
  }

  /** A request whose name and parameter count match no interface method gets -32601 with the name in the message. */
  lemma MethodNotFound(order: HashOrder, service: Service, codec: Codec, interfaceMethods: set<MethodInfo>,
                       implMethods: map<MethodInfo, MethodInfo>, request: Json, name: string)
    requires Picks(order) && interfaceMethods <= implMethods.Keys
    requires GetMethodNameFromRpcRequest(request) == Ok(Some(name))
    requires GetParameterCountFromRpcRequest(request).Ok?
    requires forall m :: m in interfaceMethods ==> m.name != name || Arity(m) != GetParameterCountFromRpcRequest(request).value
    ensures var r := SingleResponse(order, service, codec, interfaceMethods, implMethods, request);
      r.Ok? && r.value.Some? && r.value.value.error == Some(RpcError(-32601, Some("Method Not Found: " + name), None))
  {
    assert Candidates(interfaceMethods, Some(name), GetParameterCountFromRpcRequest(request).value) == {};
  }

  /** A service that throws a `JsonServiceException` gets its code negated, its message and its data into the error. */
  lemma ServiceExceptionNegatesCode(order: HashOrder, service: Service, codec: Codec, interfaceMethods: set<MethodInfo>,
                                    implMethods: map<MethodInfo, MethodInfo>, request: Json, inv: Invocation)
    requires Picks(order) && interfaceMethods <= implMethods.Keys
    requires GetMethodNameFromRpcRequest(request).Ok? && GetParameterCountFromRpcRequest(request).Ok?
    requires InvocationsOf(order, codec, interfaceMethods, implMethods, request) == {inv}
    requires service.invoke(inv.target, inv.params).Err? && service.invoke(inv.target, inv.params).thrown.detail.ServiceError?
    requires IsInstance(service.invoke(inv.target, inv.params).thrown, "java.lang.RuntimeException")
    ensures var t := service.invoke(inv.target, inv.params).thrown;
      var r := SingleResponse(order, service, codec, interfaceMethods, implMethods, request);
      r.Ok? && r.value.Some? && r.value.value.error == Some(RpcError(-t.detail.code, t.message, t.detail.data))
  {
  }

  /**
   * Any other exception of the service gets -32603 "Internal Error: "
   * with its message when it is unchecked; a checked one reaches the
   * catch clause wrapped by `ReflectionUtils`, so its message reads "null".
   */
  lemma InternalErrorAnswered(order: HashOrder, service: Service, codec: Codec, interfaceMethods: set<MethodInfo>,
                          implMethods: map<MethodInfo, MethodInfo>, request: Json, inv: Invocation)
    requires Picks(order) && interfaceMethods <= implMethods.Keys
    requires GetMethodNameFromRpcRequest(request).Ok? && GetParameterCountFromRpcRequest(request).Ok?
    requires InvocationsOf(order, codec, interfaceMethods, implMethods, request) == {inv}
    requires service.invoke(inv.target, inv.params).Err? && !service.invoke(inv.target, inv.params).thrown.detail.ServiceError?
    ensures var t := service.invoke(inv.target, inv.params).thrown;
      var r := SingleResponse(order, service, codec, interfaceMethods, implMethods, request);
      && r.Ok? && r.value.Some?
      && (IsInstance(t, "java.lang.RuntimeException") ==>
            r.value.value.error == Some(RpcError(InternalErrorCode, Some("Internal Error: " + JavaText(t.message)), None)))
      && (!IsInstance(t, "java.lang.RuntimeException") && !IsInstance(t, "java.lang.Error") ==>
            r.value.value.error == Some(RpcError(InternalErrorCode, Some("Internal Error: null"), None)))
  {
    var t := service.invoke(inv.target, inv.params).thrown;
    if !IsInstance(t, "java.lang.RuntimeException") && !IsInstance(t, "java.lang.Error") {
      assert "Internal Error: " + "null" == "Internal Error: null";
    }
  }

  /** A failed `Assertions.isTrue` in the service reaches the client as an error with the negated code, the message and the data. */
  lemma AssertionFailureAnswered(code: int, message: Option<string>, data: Option<Json>, id: Option<string>)
    ensures ThrownResponse(Assertions.IsTrue(false, code, message, data).thrown, id).error == Some(RpcError(-code, message, data))
  {
  }

  // ----- the exporter object -----

  class JsonServiceExporter {
    var serviceInterfaceMethods: set<MethodInfo>
    var serviceImplMethods: map<MethodInfo, MethodInfo>
    const service: Service
    const codec: Codec

    /** Every interface method has its implementation recorded. */
    predicate Valid()
      reads this
    {
      serviceInterfaceMethods <= serviceImplMethods.Keys
    }

    constructor (service: Service, codec: Codec)
      ensures this.service == service && this.codec == codec
      ensures serviceInterfaceMethods == {} && serviceImplMethods == map[]
      ensures Valid()
    {
      this.service := service;
      this.codec := codec;
      serviceInterfaceMethods := {};
      serviceImplMethods := map[];
    }

    /**
     * `afterPropertiesSet`: records each interface method and the
     * implementation method of the same name and parameter types; a
     * missing one raises `NoSuchMethodException` after its interface
     * method has joined the set, so a failed call leaves the exporter
     * without `Valid()` (Spring then refuses the bean).
     */
    method AfterPropertiesSet(serviceInterface: JavaClass, implementation: JavaClass) returns (r: Result<()>)
      requires Valid()
      modifies this
      ensures r.Ok? ==> Valid()
      ensures r.Ok? <==> forall m :: m in serviceInterface.methods ==> FindBySignature(implementation.methods, m).Some?
      ensures r.Ok? ==> serviceInterfaceMethods == old(serviceInterfaceMethods) + set m | m in serviceInterface.methods
      ensures r.Ok? ==> forall m :: m in serviceInterface.methods ==> serviceImplMethods[m] == FindBySignature(implementation.methods, m).value
      ensures r.Err? ==> r.thrown.className == "java.lang.NoSuchMethodException"
      ensures r.Err? ==>
        var methods := serviceInterface.methods;
        exists i :: 0 <= i < |methods| && FindBySignature(implementation.methods, methods[i]).None?
          && (forall j :: 0 <= j < i ==> FindBySignature(implementation.methods, methods[j]).Some?)
          && serviceInterfaceMethods == old(serviceInterfaceMethods) + (set j | 0 <= j <= i :: methods[j])
          && (forall j :: 0 <= j < i ==> methods[j] in serviceImplMethods && serviceImplMethods[methods[j]] == FindBySignature(implementation.methods, methods[j]).value)
    {
      var methods := serviceInterface.methods;
      for i := 0 to |methods|
        invariant Valid()
        invariant forall j :: 0 <= j < i ==> FindBySignature(implementation.methods, methods[j]).Some?
        invariant serviceInterfaceMethods == old(serviceInterfaceMethods) + set j | 0 <= j < i :: methods[j]
        invariant forall j :: 0 <= j < i ==> serviceImplMethods[methods[j]] == FindBySignature(implementation.methods, methods[j]).value
      {
        var impl := FindBySignature(implementation.methods, methods[i]);
        if impl.None? {
          assert methods[i] in serviceInterface.methods;
          serviceInterfaceMethods := serviceInterfaceMethods + {methods[i]};
          assert (set j | 0 <= j <= i :: methods[j]) == (set j | 0 <= j < i :: methods[j]) + {methods[i]};
          return Err(Throwable("java.lang.NoSuchMethodException", CheckedSupers + {"java.lang.ReflectiveOperationException"}, None, Plain));
        }
        serviceInterfaceMethods := serviceInterfaceMethods + {methods[i]};
        serviceImplMethods := serviceImplMethods[methods[i] := impl.value];
      }
      assert (set j | 0 <= j < |methods| :: methods[j]) == set m | m in methods;
      return Ok(());
    }

    /** `handleSingleRequest`. */
    method HandleSingleRequest(order: HashOrder, request: Json) returns (r: Result<Option<ResponseValue>>)
      requires Picks(order) && Valid()
      ensures r == SingleResponse(order, service, codec, serviceInterfaceMethods, serviceImplMethods, request)
    {
      var requestMethod := GetMethodNameFromRpcRequest(request);
      if requestMethod.Err? {
        return Err(requestMethod.thrown);
      }
      var requestId: Option<string> := None;
      if !IsNotification(request) {
        var id := GetIdFromRpcRequest(request);
        requestId := id.value;
      }
      var count := GetParameterCountFromRpcRequest(request);
      if count.Err? {
        return Err(count.thrown);
      }
      var methods := FilterCandidates(serviceInterfaceMethods, requestMethod.value, count.value);
      if |methods| == 0 {
        return Ok(Some(ErrorValue(MethodNotFoundCode, Some("Method Not Found: " + JavaText(requestMethod.value)), None, requestId)));
      }
      var lookup := if IsRpcRequestParametersIndexed(request).value then ByIndex else ByName(serviceImplMethods);
      var invocation := FindMethodAndParams(order, lookup, codec, request, methods);
      if invocation.None? {
        return Ok(Some(ErrorValue(InvalidParamsCode, Some("Invalid Parameters"), None, requestId)));
      }
      var result := service.invoke(invocation.value.target, invocation.value.params);
      if result.Ok? {
        return Ok(if !IsNotification(request) then Some(ResultValue(result.value, requestId)) else None);
      }
      return Ok(Some(ThrownResponse(Surfaced(result.thrown), requestId)));
    }

    /** `handleRpcRequest`: the batch elements one by one in order, keeping the non-null responses. */
    method HandleRpcRequest(order: HashOrder, request: Json) returns (r: Result<seq<ResponseValue>>)
      requires Picks(order) && Valid()
      ensures r == RpcResponses(order, service, codec, serviceInterfaceMethods, serviceImplMethods, request)
    {
      var responses: seq<ResponseValue> := [];
      if request.JArr? {
        var items := request.items;
        for i := 0 to |items|
          invariant BatchResponses(order, service, codec, serviceInterfaceMethods, serviceImplMethods, items[..i]) == Ok(responses)
        {
          assert items[..i + 1][..i] == items[..i];
          var resp := HandleSingleRequest(order, items[i]);
          if resp.Err? {
            BatchKeepsFailure(order, service, codec, serviceInterfaceMethods, serviceImplMethods, items, i + 1);
            return Err(resp.thrown);
          }
          if resp.value.Some? {
            responses := responses + [resp.value.value];
          }
        }
        assert items[..|items|] == items;
        return Ok(responses);
      } else {
        var resp := HandleSingleRequest(order, request);
        if resp.Err? {
          return Err(resp.thrown);
        }
        if resp.value.Some? {
          return Ok([resp.value.value]);
        }
        return Ok([]);
      }
    }

    /** `handleRequest`. */
    method HandleRequest(order: HashOrder, input: Input) returns (out: Outcome)
      requires Picks(order) && Valid()
      ensures out == HandleRequestSpec(order, service, codec, serviceInterfaceMethods, serviceImplMethods, input)
    {
      var status := 200;
      var rpcRequest: Option<Json> := None;
      var responses: seq<ResponseValue> := [];
      var read := ReadJson(input);
      if read.Err? {
        status := 500;
        responses := responses + [ErrorValue(ParseErrorCode, Some("Parse Error"), None, None)];
      } else {
        rpcRequest := read.value;
      }
      if rpcRequest.Some? {
        var handled := HandleRpcRequest(order, rpcRequest.value);
        if handled.Err? {
          return ServletFailure(handled.thrown);
        }
        assert responses + handled.value == handled.value;
        responses := responses + handled.value;
      }
      assert read.Err? ==> responses == [ErrorValue(ParseErrorCode, Some("Parse Error"), None, None)] && rpcRequest.None?;
      assert read.Ok? ==> rpcRequest == read.value;
      var body := NoBody;
      if IsRpcBatchRequest(rpcRequest) {
        body := Batch(responses);
      } else if |responses| == 1 {
        body := Single(responses[0]);
      }
      return Written(status, body);
    }
  }

  /** A failure on a prefix of the batch is the failure of the whole batch. */
  lemma {:induction false} BatchKeepsFailure(order: HashOrder, service: Service, codec: Codec, interfaceMethods: set<MethodInfo>,
                                             implMethods: map<MethodInfo, MethodInfo>, items: seq<Json>, j: nat)
    requires Picks(order) && interfaceMethods <= implMethods.Keys
    requires j <= |items| && BatchResponses(order, service, codec, interfaceMethods, implMethods, items[..j]).Err?
    ensures BatchResponses(order, service, codec, interfaceMethods, implMethods, items)
         == BatchResponses(order, service, codec, interfaceMethods, implMethods, items[..j])
    decreases |items| - j
  {
    if j < |items| {
      assert items[..j + 1][..j] == items[..j];
      BatchKeepsFailure(order, service, codec, interfaceMethods, implMethods, items, j + 1);
    } else {
      assert items[..j] == items;
    }
  }

  /** `getMethod(name, parameterTypes)` on the implementation class: the first method with that name and those types. */
  function FindBySignature(methods: seq<MethodInfo>, m: MethodInfo): (r: Option<MethodInfo>)
    ensures r.None? <==> forall k :: 0 <= k < |methods| ==> methods[k].name != m.name || methods[k].paramTypes != m.paramTypes
    ensures r.Some? ==> r.value in methods && r.value.name == m.name && r.value.paramTypes == m.paramTypes
  {
    if methods == [] then None
    else if methods[0].name == m.name && methods[0].paramTypes == m.paramTypes then Some(methods[0])
    else
      var rest := FindBySignature(methods[1..], m);
      assert forall k :: 0 < k < |methods| ==> methods[k] == methods[1..][k - 1];
      rest
  }
}
