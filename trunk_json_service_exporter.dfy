/**
 * The trunk line's Spring `JsonServiceExporter`: one HTTP request holding
 * one json-lib request object.  It checks the Content-Type and Accept
 * headers in strict mode, finds the service method by name and by the
 * parameters that bind to it, invokes it and answers with a
 * `JsonRpcResponse` bean, written unless the request is a notification.
 *
 * The HTTP exchange becomes the parameters of `HandleRequest` (the body
 * as parsed input, the two header values) and its `Outcome` (the status
 * and the response bean, or the exception that leaves the servlet).
 */
module TrunkExporter {
  import opened Common
  import opened JsonTree
  import opened Failures
  import opened JavaModel
  import opened TrunkRpcUtils

  const ResponseContentType: string := "application/json-rpc"
  const RequestContentTypes: seq<string> := ["application/json-rpc", "application/json", "application/jsonrequest"]

  const ParseErrorCode: int := -32700
  const InvalidRequestCode: int := -32600
  const MethodNotFoundCode: int := -32601
  const InvalidParamsCode: int := -32602
  const InternalErrorCode: int := -32603

  const ContentTypeMessage: string := "Invalid Request (Content-Type Header)"
  const AcceptMessage: string := "Invalid Request (Accept Header)"

  /** The exported service: invoking a method on arguments returns its result (`Null` for null) or throws. */
  datatype Service = Service(invoke: (MethodInfo, seq<JValue>) -> Result<JValue>)

  /** `JsonRpcError`; its data is always null here. */
  datatype RpcError = RpcError(code: int, message: string)

  /** The trunk's `JsonRpcResponse` bean: result, error and id. */
  datatype RpcResponse = RpcResponse(result: JValue, error: Option<RpcError>, id: Option<string>)

  /** The status set on the servlet response and the bean written to its body (None: nothing written), or what escapes. */
  datatype Outcome = Written(status: int, body: Option<RpcResponse>) | Failure(thrown: Throwable)

  /** The chosen service method and the parameters bound to it. */
  datatype Binding = Binding(target: MethodInfo, params: seq<JValue>)

  function ErrorResponse(code: int, message: string, id: Option<string>): RpcResponse
  {
    RpcResponse(Null, Some(RpcError(code, message)), id)
  }

  function ArrayIndexOutOfBounds(): Throwable
  {
    Throwable("java.lang.ArrayIndexOutOfBoundsException", RuntimeSupers + {"java.lang.IndexOutOfBoundsException"}, None, Plain)
  }

  // ----- the Content-Type header -----

  /** The text before the first ';'. */
  function BeforeSemicolon(s: string): (r: string)
    ensures r <= s && ';' !in r
    ensures |r| < |s| ==> s[|r|] == ';'
  {
    if s == [] || s[0] == ';' then [] else [s[0]] + BeforeSemicolon(s[1..])
  }

  /**
   * `getContentType().split(";")[0]`: a missing header is dereferenced,
   * and a header made only of ';' splits into no fields at all.
   */
  function MediaType(header: Option<string>): (r: Result<string>)
  {
    match header
    case None => Err(NullPointer())
    case Some(s) => if |s| > 0 && forall i :: 0 <= i < |s| ==> s[i] == ';' then Err(ArrayIndexOutOfBounds()) else Ok(BeforeSemicolon(s))
  }

  /** The media type is the header up to its first parameter; a header without parameters is taken whole. */
  lemma MediaTypeSpec(header: Option<string>)
    ensures header.None? ==> MediaType(header) == Err(NullPointer())
    ensures header.Some? && ';' !in header.value ==> MediaType(header) == Ok(header.value)
    ensures MediaType(header).Ok? ==> MediaType(header).value <= header.value && ';' !in MediaType(header).value
    ensures header.Some? && |header.value| > 0 && header.value[0] != ';' ==> MediaType(header).Ok?
  {
    if header.Some? && ';' !in header.value {
      NoSemicolonKept(header.value);
    }
  }

  lemma {:induction false} NoSemicolonKept(s: string)
    requires ';' !in s
    ensures BeforeSemicolon(s) == s
  {
    if s != [] {
      assert ';' !in s[1..];
      NoSemicolonKept(s[1..]);
    }
  }

  /** The error of the strict header checks: the content type first, then the Accept header. */
  function HeaderError(strict: bool, mediaType: string, accept: Option<string>): (r: Option<string>)
    ensures r.Some? ==> strict
    ensures r == Some(ContentTypeMessage) <==> strict && mediaType !in RequestContentTypes
    ensures r == Some(AcceptMessage) <==> strict && mediaType in RequestContentTypes && (accept.None? || accept.value !in RequestContentTypes)
  {
    if strict && mediaType !in RequestContentTypes then Some(ContentTypeMessage)
    else if strict && (accept.None? || accept.value == "" || accept.value !in RequestContentTypes) then Some(AcceptMessage)
    else None
  }

  // ----- reading the request -----

  /** `JSONObject.fromObject` on the body: an object, or None where `readRequest` throws `JsonParseException`. */
  function ReadRequest(input: Input): Option<map<string, Json>>
  {
    match input
    case Parsed(JObj(fields)) => Some(fields)
    case _ => None
  }

  /** `getId` as written, on top of the written `isNotification`. */
  function GetIdAsWritten(req: map<string, Json>, containerText: Json -> string): (r: Result<Option<string>>)
    ensures "id" !in req ==> r == Err(NotFound("id"))
    ensures "id" in req ==> r == Ok(Some(LibText(req["id"], containerText)))
  {
    match IsNotificationAsWritten(req, containerText)
    case Err(t) => Err(t)
    case Ok(notification) =>
      if notification then Ok(None)
      else
        match GetString(req, "id", containerText)
        case Ok(id) => Ok(Some(id))
        case Err(t) => Err(t)
  }

  // ----- invokeServiceMethod -----

  function InternalErrorMessage(t: Throwable): string
  {
    "Internal Error: " + JavaText(Surfaced(t).message)
  }

  /** The first method, in the iteration order of the set, whose parameters bind; an exception while binding stops the search. */
  function FirstBinding(order: HashOrder, req: map<string, Json>, toBean: ToBean, methods: set<MethodInfo>): (r: Result<Option<Binding>>)
    requires Picks(order)
    decreases |methods|
  {
    if methods == {} then Ok(None)
    else
      var m := order.next(methods);
      match ParametersSpec(req, m, toBean)
      case Err(t) => Err(t)
      case Ok(None) => FirstBinding(order, req, toBean, methods - {m})
      case Ok(Some(params)) => Ok(Some(Binding(m, params)))
  }

  /**
   * The search finds nothing exactly when no method binds and none throws;
   * what it finds is one of the methods, with the parameters that method
   * binds.
   */
  lemma {:induction false} FirstBindingSpec(order: HashOrder, req: map<string, Json>, toBean: ToBean, methods: set<MethodInfo>)
    requires Picks(order)
    ensures FirstBinding(order, req, toBean, methods) == Ok(None) <==> forall m :: m in methods ==> ParametersSpec(req, m, toBean) == Ok(None)
    ensures FirstBinding(order, req, toBean, methods).Ok? && FirstBinding(order, req, toBean, methods).value.Some? ==>
      var b := FirstBinding(order, req, toBean, methods).value.value;
      b.target in methods && ParametersSpec(req, b.target, toBean) == Ok(Some(b.params))
    ensures FirstBinding(order, req, toBean, methods).Err? ==>
      exists m :: m in methods && ParametersSpec(req, m, toBean) == Err(FirstBinding(order, req, toBean, methods).thrown)
    decreases |methods|
  {
    if methods != {} {
      var m := order.next(methods);
      var rest := methods - {m};
      FirstBindingSpec(order, req, toBean, rest);
      assert forall m' :: m' in methods <==> m' == m || m' in rest;
    }
  }

  /** `invokeServiceMethod`: the status and the response for a request that was read and passed the header checks. */
  function InvokeSpec(order: HashOrder, service: Service, toBean: ToBean, containerText: Json -> string,
                      serviceMethods: set<MethodInfo>, req: map<string, Json>, id: Option<string>): (r: Result<(int, RpcResponse)>)
    requires Picks(order)
  {
    if "method" !in req then Err(NotFound("method"))
    else
      var name := GetMethod(req, containerText).value;
      var methods := set m | m in serviceMethods && m.name == name;
      if methods == {} then Ok((400, ErrorResponse(MethodNotFoundCode, "Method Not Found: " + name, id)))
      else
        match FirstBinding(order, req, toBean, methods)
        case Err(t) => Err(t)
        case Ok(None) => Ok((500, ErrorResponse(InvalidParamsCode, "Invalid Parameters", id)))
        case Ok(Some(b)) =>
          match service.invoke(b.target, b.params)
          case Ok(result) => Ok((200, RpcResponse(result, None, id)))
          case Err(t) => Ok((500, ErrorResponse(InternalErrorCode, InternalErrorMessage(t), id)))
  }

  /** With no service method of the requested name the answer is 400 and -32601, naming the method. */
  lemma MethodNotFound(order: HashOrder, service: Service, toBean: ToBean, containerText: Json -> string,
                       serviceMethods: set<MethodInfo>, req: map<string, Json>, id: Option<string>)
    requires Picks(order) && "method" in req
    requires forall m :: m in serviceMethods ==> m.name != GetMethod(req, containerText).value
    ensures InvokeSpec(order, service, toBean, containerText, serviceMethods, req, id)
      == Ok((400, ErrorResponse(MethodNotFoundCode, "Method Not Found: " + GetMethod(req, containerText).value, id)))
  {
    var name := GetMethod(req, containerText).value;
    assert (set m | m in serviceMethods && m.name == name) == {};
  }

  /** When methods of that name exist but none binds the parameters, the answer is 500 and -32602. */
  lemma InvalidParameters(order: HashOrder, service: Service, toBean: ToBean, containerText: Json -> string,
                          serviceMethods: set<MethodInfo>, req: map<string, Json>, id: Option<string>, named: MethodInfo)
    requires Picks(order) && "method" in req
    requires named in serviceMethods && named.name == GetMethod(req, containerText).value
    requires forall m :: m in serviceMethods && m.name == GetMethod(req, containerText).value ==> ParametersSpec(req, m, toBean) == Ok(None)
    ensures InvokeSpec(order, service, toBean, containerText, serviceMethods, req, id)
      == Ok((500, ErrorResponse(InvalidParamsCode, "Invalid Parameters", id)))
  {
    var name := GetMethod(req, containerText).value;
    var methods := set m | m in serviceMethods && m.name == name;
    assert named in methods;
    FirstBindingSpec(order, req, toBean, methods);
  }

  /** A success (status 200) carries what the service returned for a method of that name on the parameters bound to it. */
  lemma InvokedResult(order: HashOrder, service: Service, toBean: ToBean, containerText: Json -> string,
                      serviceMethods: set<MethodInfo>, req: map<string, Json>, id: Option<string>)
    requires Picks(order)
    requires InvokeSpec(order, service, toBean, containerText, serviceMethods, req, id).Ok?
    requires InvokeSpec(order, service, toBean, containerText, serviceMethods, req, id).value.0 == 200
    ensures var response := InvokeSpec(order, service, toBean, containerText, serviceMethods, req, id).value.1;
      response.error.None? && response.id == id
      && (exists m, params :: m in serviceMethods && m.name == GetMethod(req, containerText).value
            && ParametersSpec(req, m, toBean) == Ok(Some(params)) && service.invoke(m, params) == Ok(response.result))
  {
    var name := GetMethod(req, containerText).value;
    var methods := set m | m in serviceMethods && m.name == name;
    FirstBindingSpec(order, req, toBean, methods);
    var b := FirstBinding(order, req, toBean, methods).value.value;
    assert b.target in serviceMethods && ParametersSpec(req, b.target, toBean) == Ok(Some(b.params));
  }

  /** A handler failure is answered with 500 and -32603 and the handler's message. */
  lemma HandlerFailure(order: HashOrder, service: Service, toBean: ToBean, containerText: Json -> string,
                       serviceMethods: set<MethodInfo>, req: map<string, Json>, id: Option<string>)
    requires Picks(order) && "method" in req
    requires var methods := set m | m in serviceMethods && m.name == GetMethod(req, containerText).value;
      methods != {} && FirstBinding(order, req, toBean, methods).Ok? && FirstBinding(order, req, toBean, methods).value.Some?
    requires var b := FirstBinding(order, req, toBean, set m | m in serviceMethods && m.name == GetMethod(req, containerText).value).value.value;
      service.invoke(b.target, b.params).Err?
    ensures var b := FirstBinding(order, req, toBean, set m | m in serviceMethods && m.name == GetMethod(req, containerText).value).value.value;
      InvokeSpec(order, service, toBean, containerText, serviceMethods, req, id)
        == Ok((500, ErrorResponse(InternalErrorCode, InternalErrorMessage(service.invoke(b.target, b.params).thrown), id)))
  {
  }

  /** A handler exception becomes -32603 with its message; a checked one arrives without a message. */
  lemma InternalErrorText(t: Throwable)
    ensures IsInstance(t, "java.lang.RuntimeException") ==> InternalErrorMessage(t) == "Internal Error: " + JavaText(t.message)
    ensures !IsInstance(t, "java.lang.RuntimeException") && !IsInstance(t, "java.lang.Error") ==> InternalErrorMessage(t) == "Internal Error: null"
  {
  }

  // ----- handleRequest -----

  /** The status and response before the notification test: header errors, then the parse error, then the invocation. */
  function Answer(strict: bool, order: HashOrder, service: Service, toBean: ToBean, containerText: Json -> string,
                  serviceMethods: set<MethodInfo>, request: Option<map<string, Json>>, id: Option<string>,
                  mediaType: string, accept: Option<string>): (r: Result<(int, RpcResponse)>)
    requires Picks(order)
  {
    var headerError := HeaderError(strict, mediaType, accept);
    if headerError.Some? then Ok((400, ErrorResponse(InvalidRequestCode, headerError.value, id)))
    else if request.None? then Ok((500, ErrorResponse(ParseErrorCode, "Parse Error", None)))
    else InvokeSpec(order, service, toBean, containerText, serviceMethods, request.value, id)
  }

  /**
   * `handleRequest` as written: `getId` throws for a request without an
   * id, and the final notification test dereferences the request that a
   * parse error left null.
   */
  function HandleRequestAsWritten(strict: bool, order: HashOrder, service: Service, toBean: ToBean, containerText: Json -> string,
                                  serviceMethods: set<MethodInfo>, input: Input, contentType: Option<string>, accept: Option<string>): (r: Outcome)
    requires Picks(order)
    ensures r.Written? ==> r.body.Some? && ReadRequest(input).Some? && "id" in ReadRequest(input).value
  {
    match MediaType(contentType)
    case Err(t) => Failure(t)
    case Ok(mediaType) =>
      var request := ReadRequest(input);
      var id := if request.Some? then GetIdAsWritten(request.value, containerText) else Ok(None);
      match id
      case Err(t) => Failure(t)
      case Ok(id) =>
        match Answer(strict, order, service, toBean, containerText, serviceMethods, request, id, mediaType, accept)
        case Err(t) => Failure(t)
        case Ok((status, response)) =>
          match request
          case None => Failure(NullPointer())
          case Some(req) =>
            match IsNotificationAsWritten(req, containerText)
            case Err(t) => Failure(t)
            case Ok(notification) => if notification then Written(status, None) else Written(status, Some(response))
  }

  /** As written, a body that is no JSON object never gets its -32700 answer: the servlet fails instead. */
  lemma ParseErrorNeverWritten(strict: bool, order: HashOrder, service: Service, toBean: ToBean, containerText: Json -> string,
                               serviceMethods: set<MethodInfo>, input: Input, contentType: Option<string>, accept: Option<string>)
    requires Picks(order)
    requires ReadRequest(input).None? && MediaType(contentType).Ok?
    ensures HandleRequestAsWritten(strict, order, service, toBean, containerText, serviceMethods, input, contentType, accept) == Failure(NullPointer())
  {
  }

  /** As written, a request without an id, a notification in JSON-RPC 2.0, always fails. */
  lemma NotificationFailsAsWritten(strict: bool, order: HashOrder, service: Service, toBean: ToBean, containerText: Json -> string,
                                   serviceMethods: set<MethodInfo>, fields: map<string, Json>, contentType: Option<string>, accept: Option<string>)
    requires Picks(order)
    requires "id" !in fields && MediaType(contentType).Ok?
    ensures HandleRequestAsWritten(strict, order, service, toBean, containerText, serviceMethods, Parsed(JObj(fields)), contentType, accept)
      == Failure(NotFound("id"))
  {
  }

  /**
   * `handleRequest` corrected: the parse error is written (a null request
   * is no notification), and a notification is a request with a missing
   * or empty id, whose response is not written.
   */
  function HandleRequestSpec(strict: bool, order: HashOrder, service: Service, toBean: ToBean, containerText: Json -> string,
                             serviceMethods: set<MethodInfo>, input: Input, contentType: Option<string>, accept: Option<string>): (r: Outcome)
    requires Picks(order)
    ensures ReadRequest(input).None? && MediaType(contentType).Ok? ==> r.Written? && r.body.Some?
    ensures r.Written? && r.body.None? ==> ReadRequest(input).Some? && IsNotification(ReadRequest(input).value, containerText)
  {
    match MediaType(contentType)
    case Err(t) => Failure(t)
    case Ok(mediaType) =>
      var request := ReadRequest(input);
      var id := if request.Some? then GetId(request.value, containerText) else None;
      match Answer(strict, order, service, toBean, containerText, serviceMethods, request, id, mediaType, accept)
      case Err(t) => Failure(t)
      case Ok((status, response)) =>
        if request.Some? && IsNotification(request.value, containerText) then Written(status, None)
        else Written(status, Some(response))
  }

  /** A body that is no JSON object is answered with -32700, status 500 and a null id once the headers pass. */
  lemma ParseErrorAnswered(strict: bool, order: HashOrder, service: Service, toBean: ToBean, containerText: Json -> string,
                           serviceMethods: set<MethodInfo>, input: Input, contentType: Option<string>, accept: Option<string>)
    requires Picks(order)
    requires ReadRequest(input).None? && MediaType(contentType).Ok?
    requires HeaderError(strict, MediaType(contentType).value, accept).None?
    ensures HandleRequestSpec(strict, order, service, toBean, containerText, serviceMethods, input, contentType, accept)
      == Written(500, Some(ErrorResponse(ParseErrorCode, "Parse Error", None)))
  {
  }

  /** In strict mode an unlisted content type is refused with 400 and -32600 before anything else is looked at. */
  lemma ContentTypeRefused(order: HashOrder, service: Service, toBean: ToBean, containerText: Json -> string,
                           serviceMethods: set<MethodInfo>, input: Input, contentType: Option<string>, accept: Option<string>)
    requires Picks(order)
    requires MediaType(contentType).Ok? && MediaType(contentType).value !in RequestContentTypes
    requires ReadRequest(input).None? || !IsNotification(ReadRequest(input).value, containerText)
    ensures var request := ReadRequest(input);
      var id := if request.Some? then GetId(request.value, containerText) else None;
      HandleRequestSpec(true, order, service, toBean, containerText, serviceMethods, input, contentType, accept)
        == Written(400, Some(ErrorResponse(InvalidRequestCode, ContentTypeMessage, id)))
  {
  }

  /** In strict mode a listed content type with a missing or unlisted Accept header is refused with 400 and -32600. */
  lemma AcceptRefused(order: HashOrder, service: Service, toBean: ToBean, containerText: Json -> string,
                      serviceMethods: set<MethodInfo>, input: Input, contentType: Option<string>, accept: Option<string>)
    requires Picks(order)
    requires MediaType(contentType).Ok? && MediaType(contentType).value in RequestContentTypes
    requires accept.None? || accept.value !in RequestContentTypes
    requires ReadRequest(input).None? || !IsNotification(ReadRequest(input).value, containerText)
    ensures var request := ReadRequest(input);
      var id := if request.Some? then GetId(request.value, containerText) else None;
      HandleRequestSpec(true, order, service, toBean, containerText, serviceMethods, input, contentType, accept)
        == Written(400, Some(ErrorResponse(InvalidRequestCode, AcceptMessage, id)))
  {
  }

  /** Without strict mode the headers do not matter: the answer is the one strict mode gives to listed headers. */
  lemma LaxIgnoresHeaders(order: HashOrder, service: Service, toBean: ToBean, containerText: Json -> string,
                          serviceMethods: set<MethodInfo>, request: Option<map<string, Json>>, id: Option<string>,
                          mediaType: string, accept: Option<string>)
    requires Picks(order)
    ensures Answer(false, order, service, toBean, containerText, serviceMethods, request, id, mediaType, accept)
      == Answer(true, order, service, toBean, containerText, serviceMethods, request, id, "application/json", Some("application/json"))
  {
    assert HeaderError(true, "application/json", Some("application/json")).None?;
  }

  /** A notification gets no body, whatever the outcome of its invocation; any other request that reaches the end gets one. */
  lemma NotificationSilent(strict: bool, order: HashOrder, service: Service, toBean: ToBean, containerText: Json -> string,
                           serviceMethods: set<MethodInfo>, input: Input, contentType: Option<string>, accept: Option<string>)
    requires Picks(order)
    ensures var r := HandleRequestSpec(strict, order, service, toBean, containerText, serviceMethods, input, contentType, accept);
      r.Written? ==> (r.body.None? <==> ReadRequest(input).Some? && IsNotification(ReadRequest(input).value, containerText))
  {
  }

  /** The exporter: the methods of the service interface and the strict flag. */
  class JsonServiceExporter {
    var serviceMethods: set<MethodInfo>
    var strict: bool
    const service: Service
    const order: HashOrder
    const toBean: ToBean
    const containerText: Json -> string

    constructor (service: Service, order: HashOrder, toBean: ToBean, containerText: Json -> string)
      ensures serviceMethods == {} && strict
      ensures this.service == service && this.order == order && this.toBean == toBean && this.containerText == containerText
    {
      serviceMethods := {};
      strict := true;
      this.service := service;
      this.order := order;
      this.toBean := toBean;
      this.containerText := containerText;
    }

    /** `afterPropertiesSet`: every public method of the service interface joins the set. */
    method AfterPropertiesSet(interfaceMethods: seq<MethodInfo>)
      modifies this
      ensures serviceMethods == old(serviceMethods) + (set i | 0 <= i < |interfaceMethods| :: interfaceMethods[i])
      ensures strict == old(strict)
    {
      for k := 0 to |interfaceMethods|
        invariant serviceMethods == old(serviceMethods) + (set i | 0 <= i < k :: interfaceMethods[i])
        invariant strict == old(strict)
      {
        serviceMethods := serviceMethods + {interfaceMethods[k]};
        assert (set i | 0 <= i < k + 1 :: interfaceMethods[i]) == (set i | 0 <= i < k :: interfaceMethods[i]) + {interfaceMethods[k]};
      }
    }

    method SetStrict(strict: bool)
      modifies this
      ensures this.strict == strict && serviceMethods == old(serviceMethods)
    {
      this.strict := strict;
    }

    /** The loop over the candidate methods: the first whose parameters bind. */
    method FindBinding(req: map<string, Json>, methods: set<MethodInfo>) returns (r: Result<Option<Binding>>)
      requires Picks(order)
      ensures r == FirstBinding(order, req, toBean, methods)
    {
      var unseen := methods;
      while unseen != {}
        invariant FirstBinding(order, req, toBean, unseen) == FirstBinding(order, req, toBean, methods)
        decreases |unseen|
      {
        var sm := order.next(unseen);
        var parameters := GetParameters(req, sm, toBean);
        if parameters.Err? {
          return Err(parameters.thrown);
        }
        if parameters.value.Some? {
          return Ok(Some(Binding(sm, parameters.value.value)));
        }
        unseen := unseen - {sm};
      }
      return Ok(None);
    }

    /** `invokeServiceMethod`. */
    method InvokeServiceMethod(req: map<string, Json>, id: Option<string>) returns (r: Result<(int, RpcResponse)>)
      requires Picks(order)
      ensures r == InvokeSpec(order, service, toBean, containerText, serviceMethods, req, id)
    {
      var potential := GetPotentialMethods(req, serviceMethods, containerText);
      if potential.Err? {
        return Err(potential.thrown);
      }
      var methods := potential.value;
      if methods == {} {
        var name := GetMethod(req, containerText);
        if name.Err? {
          return Err(name.thrown);
        }
        return Ok((400, ErrorResponse(MethodNotFoundCode, "Method Not Found: " + name.value, id)));
      }
      var binding := FindBinding(req, methods);
      if binding.Err? {
        return Err(binding.thrown);
      } else if binding.value.None? {
        return Ok((500, ErrorResponse(InvalidParamsCode, "Invalid Parameters", id)));
      }
      var result := service.invoke(binding.value.value.target, binding.value.value.params);
      if result.Err? {
        return Ok((500, ErrorResponse(InternalErrorCode, InternalErrorMessage(result.thrown), id)));
      }
      return Ok((200, RpcResponse(result.value, None, id)));
    }

    /** `handleRequest`: the body as parsed input and the Content-Type and Accept header values. */
    method HandleRequest(input: Input, contentType: Option<string>, accept: Option<string>) returns (outcome: Outcome)
      requires Picks(order)
      ensures outcome == HandleRequestSpec(strict, order, service, toBean, containerText, serviceMethods, input, contentType, accept)
    {
      var mediaType := MediaType(contentType);
      if mediaType.Err? {
        return Failure(mediaType.thrown);
      }
      var rpcRequest := ReadRequest(input);
      var id: Option<string> := None;
      var rpcResponse: Option<RpcResponse> := None;
      var status := 0;
      if rpcRequest.None? {
        status := 500;
        rpcResponse := Some(ErrorResponse(ParseErrorCode, "Parse Error", None));
      } else {
        id := GetId(rpcRequest.value, containerText);
      }
      var headerError := HeaderError(strict, mediaType.value, accept);
      if headerError.Some? {
        status := 400;
        rpcResponse := Some(ErrorResponse(InvalidRequestCode, headerError.value, id));
      } else if rpcResponse.None? {
        var invoked := InvokeServiceMethod(rpcRequest.value, id);
        if invoked.Err? {
          return Failure(invoked.thrown);
        }
        status := invoked.value.0;
        rpcResponse := Some(invoked.value.1);
      }
      if rpcRequest.None? || !IsNotification(rpcRequest.value, containerText) {
        return Written(status, rpcResponse);
      }
      return Written(status, None);
    }
  }
}
