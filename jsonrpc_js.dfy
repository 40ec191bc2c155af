/**
 * The browser client `JSONRPC` of `jsonrpc.js`: it builds call and
 * notification requests, hands them to a pluggable Ajax hook, numbers its
 * calls from a counter, and routes a response to the success or failure
 * callback by JavaScript truthiness.
 */
module JsonRpcJs {
  import opened Common
  import opened JsonTree
  import JacksonEngine

  /** A JavaScript value; numbers are integers (floating point is not part of this model) or NaN. */
  datatype JsValue =
    | Undefined
    | JsNull
    | JsBool(b: bool)
    | JsNumber(n: int)
    | JsNaN
    | JsString(s: string)
    | JsArray(items: seq<JsValue>)
    | JsObject(props: map<string, JsValue>)
    | JsFunction(ref: nat)             // a function object, told apart by identity

  /** The values `if (v)` takes as true: all but undefined, null, false, 0, NaN and "". */
  predicate Truthy(v: JsValue)
  {
    match v
    case Undefined => false
    case JsNull => false
    case JsBool(b) => b
    case JsNumber(n) => n != 0
    case JsNaN => false
    case JsString(s) => s != ""
    case _ => true
  }

  predicate Nullish(v: JsValue)
  {
    v.Undefined? || v.JsNull?
  }

  /**
   * `v.key` on a value that is neither null nor undefined: an own member
   * of an object, undefined otherwise (the keys read here, `id`, `error`
   * and `result`, are not inherited by any value).
   */
  function Member(v: JsValue, key: string): (r: JsValue)
    requires !Nullish(v)
    ensures v.JsObject? && key in v.props ==> r == v.props[key]
    ensures !(v.JsObject? && key in v.props) ==> r == Undefined
  {
    if v.JsObject? && key in v.props then v.props[key] else Undefined
  }

  // ----- _handleRpcResponse -----

  /** Which callback `_handleRpcResponse` calls and with what; `TypeError` when reading a member of null or undefined. */
  datatype Dispatch =
    | FailureCallback(id: JsValue, error: JsValue)
    | SuccessCallback(id: JsValue, result: JsValue)
    | SuccessCallbackWithoutResult(id: JsValue)
    | TypeError

  /** `_handleRpcResponse(response, successCallback, failureCallback)`. */
  function HandleRpcResponse(response: JsValue): (r: Dispatch)
    ensures r.TypeError? <==> Nullish(response)
    ensures r.FailureCallback? <==> !Nullish(response) && Truthy(Member(response, "error"))
    ensures r.SuccessCallback? <==>
      !Nullish(response) && !Truthy(Member(response, "error")) && Truthy(Member(response, "result"))
    ensures !r.TypeError? ==> r.id == Member(response, "id")
    ensures r.FailureCallback? ==> r.error == Member(response, "error")
    ensures r.SuccessCallback? ==> r.result == Member(response, "result")
  {
    if Nullish(response) then TypeError
    else if Truthy(Member(response, "error")) then FailureCallback(Member(response, "id"), Member(response, "error"))
    else if Truthy(Member(response, "result")) then SuccessCallback(Member(response, "id"), Member(response, "result"))
    else SuccessCallbackWithoutResult(Member(response, "id"))
  }

  /** A truthy `error` wins over any `result`. */
  lemma ErrorTakesPrecedence(id: JsValue, error: JsValue, result: JsValue)
    requires Truthy(error)
    ensures HandleRpcResponse(JsObject(map["id" := id, "error" := error, "result" := result]))
      == FailureCallback(id, error)
  {
  }

  /**
   * A falsy result (0, false, "", null) reaches the success callback
   * exactly as a response without any result does: the callback cannot
   * tell them apart.
   */
  lemma FalsyResultIsDropped(id: JsValue, result: JsValue)
    requires !Truthy(result)
    ensures HandleRpcResponse(JsObject(map["id" := id, "result" := result])) == SuccessCallbackWithoutResult(id)
    ensures HandleRpcResponse(JsObject(map["id" := id, "result" := result]))
      == HandleRpcResponse(JsObject(map["id" := id]))
  {
  }

  // ----- JSON text -----

  /** `evalJSON`: the JavaScript value of a JSON text. */
  function Parse(j: Json): (r: JsValue)
    ensures !r.Undefined? && !r.JsFunction?
  {
    match j
    case JNull => JsNull
    case JBool(b) => JsBool(b)
    case JNum(n) => JsNumber(n)
    case JStr(s) => JsString(s)
    case JArr(items) => JsArray(seq(|items|, i requires 0 <= i < |items| => Parse(items[i])))
    case JObj(fields) => JsObject(map k | k in fields :: Parse(fields[k]))
  }

  /**
   * The JSON text of a value, as the request body is written: members
   * that are undefined or functions are left out of an object, such
   * array entries become null, and NaN is written as null.
   */
  function Serialize(v: JsValue): (r: Option<Json>)
    ensures r.None? <==> v.Undefined? || v.JsFunction?
  {
    match v
    case Undefined => None
    case JsFunction(_) => None
    case JsNull => Some(JNull)
    case JsBool(b) => Some(JBool(b))
    case JsNumber(n) => Some(JNum(n))
    case JsNaN => Some(JNull)
    case JsString(s) => Some(JStr(s))
    case JsArray(items) =>
      Some(JArr(seq(|items|, i requires 0 <= i < |items| =>
        if Serialize(items[i]).Some? then Serialize(items[i]).value else JNull)))
    case JsObject(props) =>
      Some(JObj(map k | k in props && Serialize(props[k]).Some? :: Serialize(props[k]).value))
  }

  /** Writing back a parsed JSON text gives the same tree. */
  lemma {:induction false} SerializeParse(j: Json)
    ensures Serialize(Parse(j)) == Some(j)
  {
    match j
    case JArr(items) =>
      forall i | 0 <= i < |items| ensures Serialize(Parse(items[i])) == Some(items[i]) {
        SerializeParse(items[i]);
      }
      assert Serialize(Parse(j)).value.items == items;
    case JObj(fields) =>
      forall k | k in fields ensures Serialize(Parse(fields[k])) == Some(fields[k]) {
        SerializeParse(fields[k]);
      }
      assert Serialize(Parse(j)).value.fields == fields;
    case _ =>
  }

  /** The JSON values a parsed response treats as true: all but null, false, 0 and "". */
  predicate JsonTruthy(j: Json)
  {
    !(j.JNull? || j == JBool(false) || j == JNum(0) || j == JStr(""))
  }

  lemma TruthyParse(j: Json)
    ensures Truthy(Parse(j)) <==> JsonTruthy(j)
  {
  }

  /** The `id` of a parsed response, undefined when the member is absent. */
  function ParsedId(j: Json): JsValue
    requires j.JObj?
  {
    if "id" in j.fields then Parse(j.fields["id"]) else Undefined
  }

  /**
   * A JSON-RPC 2.0 response object reaches the failure callback when its
   * `error` is an object, and otherwise, when it holds a `result`, the
   * success callback gets that result only when it is truthy.
   */
  lemma ParsedResponseDispatch(j: Json)
    requires j.JObj?
    ensures "error" in j.fields && j.fields["error"].JObj? ==>
      HandleRpcResponse(Parse(j)) == FailureCallback(ParsedId(j), Parse(j.fields["error"]))
    ensures ("error" !in j.fields || j.fields["error"] == JNull) && "result" in j.fields ==>
      (HandleRpcResponse(Parse(j)) == SuccessCallback(ParsedId(j), Parse(j.fields["result"])) <==> JsonTruthy(j.fields["result"]))
    ensures ("error" !in j.fields || j.fields["error"] == JNull) && "result" in j.fields && !JsonTruthy(j.fields["result"]) ==>
      HandleRpcResponse(Parse(j)) == SuccessCallbackWithoutResult(ParsedId(j))
  {
    if "result" in j.fields {
      TruthyParse(j.fields["result"]);
    }
  }

  // ----- requests -----

  const JsonRpcVersion := "2.0"

  /** The message of the default `asyncAjaxPost` hook, spelled as in the source. */
  const NoHookMessage := "No registerd hook for JSONRPC.config.asyncAjaxPost"

  /** The options object handed to `JSONRPC.config.asyncAjaxPost`. */
  datatype AjaxOptions = AjaxOptions(url: JsValue, successCallback: JsValue, failureCallback: JsValue, rpcRequest: JsValue)

  /** How a call into the client ended: normally, or with the thrown message of `config.errorMessage`. */
  datatype Completion = Returned | Threw(message: string)

  /** The `rpcRequest` object of `call`. */
  function CallRequest(methodName: JsValue, id: JsValue, params: JsValue): (r: JsValue)
    ensures r.JsObject? && r.props.Keys == {"jsonrpc", "method", "id", "params"}
    ensures r.props["jsonrpc"] == JsString(JsonRpcVersion) && r.props["method"] == methodName
    ensures r.props["id"] == id && r.props["params"] == params
  {
    JsObject(map["jsonrpc" := JsString(JsonRpcVersion), "method" := methodName, "id" := id, "params" := params])
  }

  /** The `rpcRequest` object of `notify`: no `id` member. */
  function NotifyRequest(methodName: JsValue, params: JsValue): (r: JsValue)
    ensures r.JsObject? && r.props.Keys == {"jsonrpc", "method", "params"}
    ensures r.props["jsonrpc"] == JsString(JsonRpcVersion) && r.props["method"] == methodName && r.props["params"] == params
  {
    JsObject(map["jsonrpc" := JsString(JsonRpcVersion), "method" := methodName, "params" := params])
  }

  /** Sent to a jsonrpc4j server, a notification request is a notification and a numbered call is not. */
  lemma RequestsAsTheServerSeesThem(methodName: JsValue, n: int, params: JsValue)
    ensures Serialize(NotifyRequest(methodName, params)).Some?
    ensures JacksonEngine.IsNotification(Serialize(NotifyRequest(methodName, params)).value)
    ensures Serialize(CallRequest(methodName, JsNumber(n), params)).Some?
    ensures Get(Serialize(CallRequest(methodName, JsNumber(n), params)).value, "id") == Some(JNum(n))
    ensures !JacksonEngine.IsNotification(Serialize(CallRequest(methodName, JsNumber(n), params)).value)
  {
    var request := CallRequest(methodName, JsNumber(n), params);
    assert "id" in request.props && Serialize(request.props["id"]) == Some(JNum(n));
    var call := Serialize(request).value;
    assert "id" in call.fields && call.fields["id"] == JNum(n);
  }

  // ----- the id counter -----

  /** The ids issued so far are 1, 2, ..., `lastId`. */
  ghost predicate IdsFromOne(issued: seq<int>, lastId: int)
  {
    |issued| == lastId && forall i :: 0 <= i < |issued| ==> issued[i] == i + 1
  }

  /** Issued ids start at 1 and strictly increase, so no two calls share one. */
  lemma IssuedIdsIncrease(issued: seq<int>, lastId: int)
    requires IdsFromOne(issued, lastId)
    ensures |issued| > 0 ==> issued[0] == 1
    ensures forall i, j :: 0 <= i < j < |issued| ==> issued[i] < issued[j]
  {
  }

  /** A call function as `createCallFunction` evidently meant to return it: bound to a URL and a method name. */
  datatype CallFunction = CallFunction(url: JsValue, methodName: JsValue)

  /** A notify function as `createNotifyFunction` evidently meant to return it. */
  datatype NotifyFunction = NotifyFunction(url: JsValue, methodName: JsValue)

  /**
   * The `JSONRPC` object: the `_lastId` counter, whether an `asyncAjaxPost`
   * hook is registered (Prototype's, by `registerPrototypeJs`) and the
   * options objects handed to it, in order.  What the hook then does on
   * the network is not part of this model.
   */
  class JsonRpc {
    var lastId: int
    var hookRegistered: bool
    var posted: seq<AjaxOptions>
    ghost var issued: seq<int>

    ghost predicate Valid()
      reads this
    {
      IdsFromOne(issued, lastId)
    }

    /** The object literal: `_lastId` 0 and the default hook. */
    constructor()
      ensures Valid() && lastId == 0 && !hookRegistered && posted == [] && issued == []
    {
      lastId := 0;
      hookRegistered := false;
      posted := [];
      issued := [];
    }

    /** `registerPrototypeJs()`: install the Prototype Ajax hook. */
    method RegisterPrototypeJs()
      modifies this
      ensures hookRegistered
      ensures lastId == old(lastId) && posted == old(posted) && issued == old(issued)
    {
      hookRegistered := true;
    }

    /** `_generateId()`: increment `_lastId` and return it. */
    method GenerateId() returns (id: int)
      requires Valid()
      modifies this
      ensures Valid()
      ensures id == old(lastId) + 1 && lastId == id && issued == old(issued) + [id]
      ensures forall i :: 0 <= i < |old(issued)| ==> old(issued)[i] < id
      ensures hookRegistered == old(hookRegistered) && posted == old(posted)
    {
      lastId := lastId + 1;
      issued := issued + [lastId];
      id := lastId;
    }

    /** `config.asyncAjaxPost(options)`: the default hook reports and throws. */
    method AsyncAjaxPost(options: AjaxOptions) returns (r: Completion)
      modifies this
      ensures r == (if hookRegistered then Returned else Threw(NoHookMessage))
      ensures posted == old(posted) + (if hookRegistered then [options] else [])
      ensures lastId == old(lastId) && issued == old(issued) && hookRegistered == old(hookRegistered)
    {
      if hookRegistered {
        posted := posted + [options];
        return Returned;
      }
      return Threw(NoHookMessage);
    }

    /** `call(url, methodName, id, params, successCallback, failureCallback)`. */
    method Call(url: JsValue, methodName: JsValue, id: JsValue, params: JsValue, success: JsValue, failure: JsValue)
      returns (r: Completion)
      modifies this
      ensures r == (if hookRegistered then Returned else Threw(NoHookMessage))
      ensures posted == old(posted) + (if hookRegistered then [AjaxOptions(url, success, failure, CallRequest(methodName, id, params))] else [])
      ensures lastId == old(lastId) && issued == old(issued) && hookRegistered == old(hookRegistered)
    {
      r := AsyncAjaxPost(AjaxOptions(url, success, failure, CallRequest(methodName, id, params)));
    }

    /** `notify(url, methodName, params, successCallback, failureCallback)`. */
    method Notify(url: JsValue, methodName: JsValue, params: JsValue, success: JsValue, failure: JsValue)
      returns (r: Completion)
      modifies this
      ensures r == (if hookRegistered then Returned else Threw(NoHookMessage))
      ensures posted == old(posted) + (if hookRegistered then [AjaxOptions(url, success, failure, NotifyRequest(methodName, params))] else [])
      ensures lastId == old(lastId) && issued == old(issued) && hookRegistered == old(hookRegistered)
    {
      r := AsyncAjaxPost(AjaxOptions(url, success, failure, NotifyRequest(methodName, params)));
    }

    /**
     * `createCallFunction(url, methodName)` as written: `new function(...) {...}`
     * runs the anonymous function at once as a constructor, with no
     * arguments, so a request with an undefined `params` and no callbacks
     * is sent right away and the value returned is the new, empty object,
     * which cannot be called.
     */
    method CreateCallFunctionAsWritten(url: JsValue, methodName: JsValue) returns (created: JsValue, r: Completion)
      requires Valid()
      modifies this
      ensures Valid() && lastId == old(lastId) + 1 && issued == old(issued) + [lastId]
      ensures posted == old(posted)
        + (if hookRegistered then [AjaxOptions(url, Undefined, Undefined, CallRequest(methodName, JsNumber(lastId), Undefined))] else [])
      ensures r == (if hookRegistered then Returned else Threw(NoHookMessage))
      ensures r.Returned? ==> created == JsObject(map[]) && !created.JsFunction?
      ensures hookRegistered == old(hookRegistered)
    {
      var id := GenerateId();
      r := Call(url, methodName, JsNumber(id), Undefined, Undefined, Undefined);
      created := if r.Returned? then JsObject(map[]) else Undefined;
    }

    /** `createNotifyFunction(url, methodName)` as written: the same `new function` sends one notification at once. */
    method CreateNotifyFunctionAsWritten(url: JsValue, methodName: JsValue) returns (created: JsValue, r: Completion)
      modifies this
      ensures posted == old(posted)
        + (if hookRegistered then [AjaxOptions(url, Undefined, Undefined, NotifyRequest(methodName, Undefined))] else [])
      ensures r == (if hookRegistered then Returned else Threw(NoHookMessage))
      ensures r.Returned? ==> created == JsObject(map[]) && !created.JsFunction?
      ensures lastId == old(lastId) && issued == old(issued) && hookRegistered == old(hookRegistered)
    {
      r := Notify(url, methodName, Undefined, Undefined, Undefined);
      created := if r.Returned? then JsObject(map[]) else Undefined;
    }

    /**
     * Calling the function `createCallFunction` evidently meant to return:
     * every call takes a fresh id, larger than every id issued before,
     * and sends the caller's params and callbacks.
     */
    method InvokeCallFunction(f: CallFunction, params: JsValue, success: JsValue, failure: JsValue) returns (r: Completion)
      requires Valid()
      modifies this
      ensures Valid() && lastId == old(lastId) + 1 && issued == old(issued) + [lastId]
      ensures forall i :: 0 <= i < |old(issued)| ==> old(issued)[i] < lastId
      ensures posted == old(posted)
        + (if hookRegistered then [AjaxOptions(f.url, success, failure, CallRequest(f.methodName, JsNumber(lastId), params))] else [])
      ensures r == (if hookRegistered then Returned else Threw(NoHookMessage))
      ensures hookRegistered == old(hookRegistered)
    {
      var id := GenerateId();
      r := Call(f.url, f.methodName, JsNumber(id), params, success, failure);
    }

    /** Calling the function `createNotifyFunction` evidently meant to return: one notification per call. */
    method InvokeNotifyFunction(f: NotifyFunction, params: JsValue, success: JsValue, failure: JsValue) returns (r: Completion)
      modifies this
      ensures posted == old(posted)
        + (if hookRegistered then [AjaxOptions(f.url, success, failure, NotifyRequest(f.methodName, params))] else [])
      ensures r == (if hookRegistered then Returned else Threw(NoHookMessage))
      ensures lastId == old(lastId) && issued == old(issued) && hookRegistered == old(hookRegistered)
    {
      r := Notify(f.url, f.methodName, params, success, failure);
    }
  }
}
