/**
 * `JsonRpcClient`: builds a request (or a notification) object, lets an
 * optional listener change it, writes it, and interprets the response
 * object it reads back as an error, a converted result or nothing.
 *
 * The `ObjectMapper` is the engine's `Codec`; the output stream is a
 * `JsonSink` and the input stream an `Input`.  The random request id is a
 * parameter.
 */
module JsonRpcClient {
  import opened Common
  import opened JsonTree
  import opened Failures
  import opened JavaModel
  import opened RequestValidation
  import opened JacksonEngine
  import Server = JsonRpcServer

  const JsonRpcVersion: string := "2.0"
  const InvalidResponse: string := "Invalid JSON-RPC response"

  /** A `RequestListener`: what it makes of the members of the request before it is sent and of the response before it is read. */
  datatype Listener = Listener(
    onBeforeRequestSent: map<string, Json> -> map<string, Json>,
    onBeforeResponseProcessed: map<string, Json> -> map<string, Json>)

  /** `new Exception(message)`. */
  function PlainException(message: string): Throwable
  {
    Throwable("java.lang.Exception", {"java.lang.Throwable"}, Some(message), Plain)
  }

  // ----- the text of a node -----

  function HexDigit(d: nat): char
    requires d < 16
  {
    "0123456789ABCDEF"[d]
  }

  /** One character of a quoted JSON string: quote, backslash and control characters are escaped. */
  function EscapedChar(c: char): (r: string)
    ensures c >= ' ' && c != '"' && c != '\\' ==> r == [c]
    ensures c < ' ' || c == '"' || c == '\\' ==> |r| >= 2 && r[0] == '\\'
  {
    if c == '"' then "\\\""
    else if c == '\\' then "\\\\"
    else if c < ' ' then
      var code := c as int;
      if code == 8 then "\\b"
      else if code == 9 then "\\t"
      else if code == 10 then "\\n"
      else if code == 12 then "\\f"
      else if code == 13 then "\\r"
      else "\\u00" + [HexDigit(code / 16), HexDigit(code % 16)]
    else [c]
  }

  function Escaped(s: string): string
  {
    if |s| == 0 then "" else EscapedChar(s[0]) + Escaped(s[1..])
  }

  /** A text node's `toString()`: the escaped text between double quotes. */
  function Quoted(s: string): string
  {
    "\"" + Escaped(s) + "\""
  }

  /** Text without quote, backslash or control characters is quoted unchanged. */
  lemma {:induction false} PlainTextEscapesToItself(s: string)
    requires forall i :: 0 <= i < |s| ==> s[i] >= ' ' && s[i] != '"' && s[i] != '\\'
    ensures Escaped(s) == s
  {
    if |s| > 0 {
      PlainTextEscapesToItself(s[1..]);
    }
  }

  /**
   * String concatenation of a member read with `get`: "null" for a missing
   * member; arrays and objects are rendered by `containerText`.
   */
  function NodeText(node: Option<Json>, containerText: Json -> string): string
  {
    match node
    case None => "null"
    case Some(JNull) => "null"
    case Some(JBool(b)) => if b then "true" else "false"
    case Some(JNum(n)) => IntToString(n)
    case Some(JStr(s)) => Quoted(s)
    case Some(other) => containerText(other)
  }

  // ----- building requests -----

  /** `mapper.valueToTree(arguments)`: the array of the argument trees; a null array is JSON null. */
  function ParamsTree(codec: Codec, arguments: Option<seq<JValue>>): (r: Result<Json>)
    ensures arguments.None? ==> r == Ok(JNull)
    ensures arguments.Some? ==> (r.Ok? <==> forall i :: 0 <= i < |arguments.value| ==> codec.toTree(arguments.value[i]).Ok?)
    ensures arguments.Some? && r.Ok? ==>
      r.value.JArr? && |r.value.items| == |arguments.value|
      && forall i :: 0 <= i < |arguments.value| ==> codec.toTree(arguments.value[i]) == Ok(r.value.items[i])
  {
    if arguments.None? then Ok(JNull)
    else
      ArgumentTreesFailure(codec, arguments.value);
      match ArgumentTrees(codec, arguments.value)
      case Ok(trees) => Ok(JArr(trees))
      case Err(e) => Err(IllegalArgument(e.message))
  }

  /** The members after the listener, if any, has seen the request. */
  function Sent(listener: Option<Listener>, members: map<string, Json>): map<string, Json>
  {
    if listener.Some? then listener.value.onBeforeRequestSent(members) else members
  }

  /** The members of a notification: version, method and params. */
  function NotificationMembers(methodName: Option<string>, params: Json): (m: map<string, Json>)
    ensures m.Keys == {"jsonrpc", "method", "params"}
    ensures m["jsonrpc"] == JStr(JsonRpcVersion) && m["method"] == TextNode(methodName) && m["params"] == params
  {
    map["jsonrpc" := JStr(JsonRpcVersion), "method" := TextNode(methodName), "params" := params]
  }

  /** The members of a request: those of a notification and the id. */
  function RequestMembers(methodName: Option<string>, params: Json, id: Option<string>): (m: map<string, Json>)
    ensures m.Keys == {"id", "jsonrpc", "method", "params"}
    ensures m == NotificationMembers(methodName, params)["id" := TextNode(id)]
  {
    NotificationMembers(methodName, params)["id" := TextNode(id)]
  }

  /** What `writeRequest` writes: the request object as the listener leaves it, or the failure converting the arguments. */
  function WrittenRequest(codec: Codec, listener: Option<Listener>, methodName: Option<string>,
                          arguments: Option<seq<JValue>>, id: Option<string>): (r: Result<Json>)
    ensures r.Ok? <==> ParamsTree(codec, arguments).Ok?
    ensures r.Ok? ==> r.value == JObj(Sent(listener, RequestMembers(methodName, ParamsTree(codec, arguments).value, id)))
  {
    var params := ParamsTree(codec, arguments);
    if params.Err? then Err(params.thrown)
    else Ok(JObj(Sent(listener, RequestMembers(methodName, params.value, id))))
  }

  /** What `writeNotification` writes: the same object without an id. */
  function WrittenNotification(codec: Codec, listener: Option<Listener>, methodName: Option<string>,
                               arguments: Option<seq<JValue>>): (r: Result<Json>)
    ensures r.Ok? <==> ParamsTree(codec, arguments).Ok?
    ensures r.Ok? ==> r.value == JObj(Sent(listener, NotificationMembers(methodName, ParamsTree(codec, arguments).value)))
  {
    var params := ParamsTree(codec, arguments);
    if params.Err? then Err(params.thrown)
    else Ok(JObj(Sent(listener, NotificationMembers(methodName, params.value))))
  }

  // ----- reading responses -----

  /** A member that is present and not JSON null. */
  predicate Present(fields: map<string, Json>, name: string)
  {
    name in fields && fields[name] != JNull
  }

  /** The message of the exception a response error raises. */
  function ErrorText(error: map<string, Json>, containerText: Json -> string): string
  {
    "JSON-RPC Error " + NodeText(Get(JObj(error), "code"), containerText) + ": " + NodeText(Get(JObj(error), "message"), containerText)
  }

  /**
   * The members of a response object after the listener: a present error
   * always raises (before the result is looked at), a present result is
   * converted to the return type, and otherwise the answer is null.
   */
  function Classify(codec: Codec, containerText: Json -> string, fields: map<string, Json>, returnType: ClassRef): (r: Result<JValue>)
    ensures Present(fields, "error") ==> r.Err?
    ensures Present(fields, "error") && !fields["error"].JObj? ==> r == Err(ClassCast())
    ensures Present(fields, "error") && fields["error"].JObj? ==>
      r == Err(PlainException(ErrorText(fields["error"].fields, containerText)))
    ensures !Present(fields, "error") && Present(fields, "result") ==> r == codec.readValue(fields["result"], returnType)
    ensures !Present(fields, "error") && !Present(fields, "result") ==> r == Ok(Null)
  {
    if Present(fields, "error") then
      var error := fields["error"];
      if !error.JObj? then Err(ClassCast())
      else Err(PlainException(ErrorText(error.fields, containerText)))
    else if Present(fields, "result") then
      codec.readValue(fields["result"], returnType)
    else Ok(Null)
  }

  /** The members after the listener, if any, has seen the response. */
  function Seen(listener: Option<Listener>, members: map<string, Json>): map<string, Json>
  {
    if listener.Some? then listener.value.onBeforeResponseProcessed(members) else members
  }

  /** `readResponse`: what reading one value from the input gives. */
  function Interpret(codec: Codec, containerText: Json -> string, listener: Option<Listener>, input: Input, returnType: ClassRef): (r: Result<JValue>)
    ensures input.Unparseable? ==> r == Err(JacksonParseError())
    ensures input.EndOfInput? ==> r == Err(NoContent())
    ensures input.Parsed? && !input.node.JObj? ==> r == Err(PlainException(InvalidResponse))
    ensures input.Parsed? && input.node.JObj? ==>
      r == Classify(codec, containerText, Seen(listener, input.node.fields), returnType)
  {
    match input
    case Unparseable => Err(JacksonParseError())
    case EndOfInput => Err(NoContent())
    case Parsed(node) =>
      if !node.JObj? then Err(PlainException(InvalidResponse))
      else Classify(codec, containerText, Seen(listener, node.fields), returnType)
  }

  // ----- the client and the server -----

  /** A request the client builds (with no listener) is one the engine accepts, with the id and method it was given. */
  lemma RequestIsValid(codec: Codec, methodName: string, arguments: Option<seq<JValue>>, id: string)
    requires !IsBlank(methodName) && ParamsTree(codec, arguments).Ok?
    ensures var w := WrittenRequest(codec, None, Some(methodName), arguments, Some(id)).value;
      IsValidRequest(w) && !IsNotification(w)
      && ValidateRpcRequest(Some(w)) == Ok(w)
      && GetIdFromRpcRequest(w) == Ok(Some(id))
      && GetMethodNameFromRpcRequest(w) == Ok(Some(methodName))
  {
    var w := WrittenRequest(codec, None, Some(methodName), arguments, Some(id)).value;
    assert w.fields["jsonrpc"] == JStr("2.0") && w.fields["method"] == JStr(methodName);
  }

  /** A notification the client builds is a valid request the engine treats as a notification. */
  lemma NotificationIsValid(codec: Codec, methodName: string, arguments: Option<seq<JValue>>)
    requires !IsBlank(methodName) && ParamsTree(codec, arguments).Ok?
    ensures var w := WrittenNotification(codec, None, Some(methodName), arguments).value;
      IsValidRequest(w) && IsNotification(w) && ValidateRpcRequest(Some(w)) == Ok(w)
  {
    var w := WrittenNotification(codec, None, Some(methodName), arguments).value;
    assert w.fields["jsonrpc"] == JStr("2.0") && w.fields["method"] == JStr(methodName);
    assert "id" !in w.fields;
  }

  /** The engine reads back as many positional parameters as the client sent, in order. */
  lemma ParamsReadBack(codec: Codec, methodName: Option<string>, arguments: seq<JValue>, id: Option<string>, i: nat)
    requires ParamsTree(codec, Some(arguments)).Ok? && i < |arguments|
    ensures var w := WrittenRequest(codec, None, methodName, Some(arguments), id).value;
      GetParameterCountFromRpcRequest(w) == Ok(|arguments|)
      && IsRpcRequestParametersIndexed(w) == Ok(true)
      && GetParameterByIndex(w, i).Ok? && GetParameterByIndex(w, i).value.Some?
      && codec.toTree(arguments[i]) == Ok(GetParameterByIndex(w, i).value.value)
  {
    var w := WrittenRequest(codec, None, methodName, Some(arguments), id).value;
    assert w.fields["params"] == ParamsTree(codec, Some(arguments)).value;
  }

  /** An error response of the server is raised by the client as an exception naming its code and quoted message. */
  lemma ServerErrorIsRaised(codec: Codec, containerText: Json -> string, jsonRpc: Option<string>, id: Option<string>,
                            code: int, message: string, data: Option<Json>, returnType: ClassRef)
    ensures Interpret(codec, containerText, None, Parsed(Server.ErrorResponse(jsonRpc, id, code, message, data)), returnType)
            == Err(PlainException("JSON-RPC Error " + IntToString(code) + ": " + Quoted(message)))
  {
    var response := Server.ErrorResponse(jsonRpc, id, code, message, data);
    var error := response.fields["error"];
    assert Present(response.fields, "error") && error.JObj?;
    assert Get(error, "code") == Some(JNum(code)) && Get(error, "message") == Some(JStr(message));
  }

  /** A result response of the server is converted by the client; a null result reads as null. */
  lemma ServerResultIsRead(codec: Codec, containerText: Json -> string, jsonRpc: Option<string>, id: string,
                           tree: Json, returnType: ClassRef)
    ensures var response := Server.Response(jsonRpc, id, Server.Returned(tree), []);
      Interpret(codec, containerText, None, Parsed(response), returnType)
      == if tree == JNull then Ok(Null) else codec.readValue(tree, returnType)
  {
    var response := Server.Response(jsonRpc, id, Server.Returned(tree), []);
    assert "error" !in response.fields && response.fields["result"] == tree;
  }

  /** A failed invocation on the server never reads as a value on the client. */
  lemma ServerFailureIsRaised(codec: Codec, containerText: Json -> string, jsonRpc: Option<string>, id: string,
                              failure: Server.InvokeFailure, mappings: seq<ErrorMapping>, returnType: ClassRef)
    ensures Interpret(codec, containerText, None, Parsed(Server.Response(jsonRpc, id, Server.Failed(failure), mappings)), returnType).Err?
  {
    var response := Server.Response(jsonRpc, id, Server.Failed(failure), mappings);
    Server.ErrorObjectSpec(mappings, Server.Unwrapped(failure));
    assert Present(response.fields, "error");
  }

  class Client {
    /** The `ObjectMapper`. */
    const codec: Codec
    /** How Jackson renders an array or object node as text. */
    const containerText: Json -> string
    var listener: Option<Listener>

    /** `new JsonRpcClient(mapper)`: no listener. */
    constructor (codec: Codec, containerText: Json -> string)
      ensures this.codec == codec && this.containerText == containerText && listener.None?
    {
      this.codec := codec;
      this.containerText := containerText;
      listener := None;
    }

    method SetRequestListener(listener: Option<Listener>)
      modifies this
      ensures this.listener == listener
    {
      this.listener := listener;
    }

    /** `writeRequest`: puts id, version, method and params, shows the object to the listener, then writes it. */
    method WriteRequest(methodName: Option<string>, arguments: Option<seq<JValue>>, ops: Server.JsonSink, id: Option<string>)
      returns (r: Result<()>)
      modifies ops
      ensures var w := WrittenRequest(codec, listener, methodName, arguments, id);
        (w.Ok? ==> r.Ok? && ops.written == old(ops.written) + [w.value])
        && (w.Err? ==> r == Err(w.thrown) && ops.written == old(ops.written))
    {
      var request: map<string, Json> := map[];
      request := request["id" := TextNode(id)];
      request := request["jsonrpc" := JStr(JsonRpcVersion)];
      request := request["method" := TextNode(methodName)];
      var params := ParamsTree(codec, arguments);
      if params.Err? {
        return Err(params.thrown);
      }
      request := request["params" := params.value];
      assert request == RequestMembers(methodName, params.value, id);
      if listener.Some? {
        request := listener.value.onBeforeRequestSent(request);
      }
      ops.Write(JObj(request));
      return Ok(());
    }

    /** `writeNotification`: as `writeRequest` without the id. */
    method WriteNotification(methodName: Option<string>, arguments: Option<seq<JValue>>, ops: Server.JsonSink)
      returns (r: Result<()>)
      modifies ops
      ensures var w := WrittenNotification(codec, listener, methodName, arguments);
        (w.Ok? ==> r.Ok? && ops.written == old(ops.written) + [w.value])
        && (w.Err? ==> r == Err(w.thrown) && ops.written == old(ops.written))
    {
      var request: map<string, Json> := map[];
      request := request["jsonrpc" := JStr(JsonRpcVersion)];
      request := request["method" := TextNode(methodName)];
      var params := ParamsTree(codec, arguments);
      if params.Err? {
        return Err(params.thrown);
      }
      request := request["params" := params.value];
      assert request == NotificationMembers(methodName, params.value);
      if listener.Some? {
        request := listener.value.onBeforeRequestSent(request);
      }
      ops.Write(JObj(request));
      return Ok(());
    }

    /** `invoke(methodName, arguments, ops, id)`: writes the request (the flush is not modelled). */
    method Invoke(methodName: Option<string>, arguments: Option<seq<JValue>>, ops: Server.JsonSink, id: Option<string>)
      returns (r: Result<()>)
      modifies ops
      ensures var w := WrittenRequest(codec, listener, methodName, arguments, id);
        (w.Ok? ==> r.Ok? && ops.written == old(ops.written) + [w.value])
        && (w.Err? ==> r == Err(w.thrown) && ops.written == old(ops.written))
    {
      r := WriteRequest(methodName, arguments, ops, id);
    }

    /** `invoke(methodName, arguments, ops)`: the id is the decimal text of the next random long. */
    method InvokeWithRandomId(methodName: Option<string>, arguments: Option<seq<JValue>>, ops: Server.JsonSink, nextLong: int)
      returns (r: Result<()>)
      modifies ops
      ensures var w := WrittenRequest(codec, listener, methodName, arguments, Some(IntToString(nextLong)));
        (w.Ok? ==> r.Ok? && ops.written == old(ops.written) + [w.value])
        && (w.Err? ==> r == Err(w.thrown) && ops.written == old(ops.written))
    {
      r := Invoke(methodName, arguments, ops, Some(IntToString(nextLong)));
    }

    /** `invokeNotification`: writes the notification. */
    method InvokeNotification(methodName: Option<string>, arguments: Option<seq<JValue>>, ops: Server.JsonSink)
      returns (r: Result<()>)
      modifies ops
      ensures var w := WrittenNotification(codec, listener, methodName, arguments);
        (w.Ok? ==> r.Ok? && ops.written == old(ops.written) + [w.value])
        && (w.Err? ==> r == Err(w.thrown) && ops.written == old(ops.written))
    {
      r := WriteNotification(methodName, arguments, ops);
    }

    /** `readResponse(returnType, ips)`. */
    method ReadResponse(returnType: ClassRef, ips: Input) returns (r: Result<JValue>)
      ensures r == Interpret(codec, containerText, listener, ips, returnType)
    {
      match ips
      case Unparseable => return Err(JacksonParseError());
      case EndOfInput => return Err(NoContent());
      case Parsed(response) =>
        if !response.JObj? {
          return Err(PlainException(InvalidResponse));
        }
        var members := response.fields;
        if listener.Some? {
          members := listener.value.onBeforeResponseProcessed(members);
        }
        assert Interpret(codec, containerText, listener, ips, returnType) == Classify(codec, containerText, members, returnType);
        if Present(members, "error") {
          var error := members["error"];
          if !error.JObj? {
            return Err(ClassCast());
          }
          return Err(PlainException(ErrorText(error.fields, containerText)));
        }
        if Present(members, "result") {
          return codec.readValue(members["result"], returnType);
        }
        return Ok(Null);
    }

    /** `invokeAndReadResponse(..., id)`: writes the request with that id, then reads exactly one response. */
    method InvokeAndReadResponse(methodName: Option<string>, arguments: Option<seq<JValue>>, returnType: ClassRef,
                                 ops: Server.JsonSink, ips: Input, id: Option<string>) returns (r: Result<JValue>)
      modifies ops
      ensures var w := WrittenRequest(codec, listener, methodName, arguments, id);
        (w.Ok? ==> ops.written == old(ops.written) + [w.value] && r == Interpret(codec, containerText, listener, ips, returnType))
        && (w.Err? ==> r == Err(w.thrown) && ops.written == old(ops.written))
    {
      var sent := Invoke(methodName, arguments, ops, id);
      if sent.Err? {
        return Err(sent.thrown);
      }
      r := ReadResponse(returnType, ips);
    }

    /** `invokeAndReadResponse` without an id: the id is the decimal text of the next random long. */
    method InvokeAndReadResponseWithRandomId(methodName: Option<string>, arguments: Option<seq<JValue>>, returnType: ClassRef,
                                             ops: Server.JsonSink, ips: Input, nextLong: int) returns (r: Result<JValue>)
      modifies ops
      ensures var w := WrittenRequest(codec, listener, methodName, arguments, Some(IntToString(nextLong)));
        (w.Ok? ==> ops.written == old(ops.written) + [w.value] && r == Interpret(codec, containerText, listener, ips, returnType))
        && (w.Err? ==> r == Err(w.thrown) && ops.written == old(ops.written))
    {
      r := InvokeAndReadResponse(methodName, arguments, returnType, ops, ips, Some(IntToString(nextLong)));
    }
  }
}
