/**
 * `JsonRpcResponse`, the mutable response record of the Spring exporter:
 * a protocol version, a result, an error and an id, each settable on its
 * own.  `JsonRpcError` (code, message, data) is plain data.
 */
module JsonRpcResponse {
  import opened Common
  import opened JsonTree

  /** `JsonRpcError`: the code, the message (possibly null) and the data (possibly null) of an error. */
  datatype RpcError = RpcError(code: int, message: Option<string>, data: Option<Json>)

  /**
   * The four fields of a response at one moment.  The result is the tree
   * of the returned object, `JNull` for a null result; the other fields
   * are `None` when null.
   */
  datatype ResponseValue = ResponseValue(jsonrpc: Option<string>, result: Json, error: Option<RpcError>, id: Option<string>)

  const Version: string := "2.0"

  /** What `createError(code, message, data, id)` builds. */
  function ErrorValue(code: int, message: Option<string>, data: Option<Json>, id: Option<string>): (r: ResponseValue)
    ensures r.jsonrpc == Some(Version) && r.result == JNull && r.id == id
    ensures r.error.Some? && r.error.value.code == code && r.error.value.message == message && r.error.value.data == data
  {
    ResponseValue(Some(Version), JNull, Some(RpcError(code, message, data)), id)
  }

  /** What `createResponse(result, id)` builds. */
  function ResultValue(result: Json, id: Option<string>): (r: ResponseValue)
    ensures r.jsonrpc == Some(Version) && r.error.None? && r.result == result && r.id == id
  {
    ResponseValue(Some(Version), result, None, id)
  }

  class Response {
    var jsonrpc: Option<string>
    var result: Json
    var error: Option<RpcError>
    var id: Option<string>

    function Value(): ResponseValue
      reads this
    {
      ResponseValue(jsonrpc, result, error, id)
    }

    /** `new JsonRpcResponse(result, error, id)`: the version starts as "2.0". */
    constructor (result: Json, error: Option<RpcError>, id: Option<string>)
      ensures Value() == ResponseValue(Some(Version), result, error, id)
    {
      this.jsonrpc := Some(Version);
      this.result := result;
      this.error := error;
      this.id := id;
    }

    /** `new JsonRpcResponse()`: result, error and id all null. */
    constructor Empty()
      ensures Value() == ResponseValue(Some(Version), JNull, None, None)
    {
      jsonrpc := Some(Version);
      result := JNull;
      error := None;
      id := None;
    }

    static method CreateError(code: int, message: Option<string>, data: Option<Json>, id: Option<string>) returns (r: Response)
      ensures fresh(r) && r.Value() == ErrorValue(code, message, data, id)
    {
      r := new Response(JNull, Some(RpcError(code, message, data)), id);
    }

    static method CreateResponse(result: Json, id: Option<string>) returns (r: Response)
      ensures fresh(r) && r.Value() == ResultValue(result, id)
    {
      r := new Response(result, None, id);
    }

    method SetResult(result: Json)
      modifies this
      ensures Value() == old(Value()).(result := result)
    {
      this.result := result;
    }

    method SetError(error: Option<RpcError>)
      modifies this
      ensures Value() == old(Value()).(error := error)
    {
      this.error := error;
    }

    method SetId(id: Option<string>)
      modifies this
      ensures Value() == old(Value()).(id := id)
    {
      this.id := id;
    }

    method SetJsonrpc(jsonrpc: Option<string>)
      modifies this
      ensures Value() == old(Value()).(jsonrpc := jsonrpc)
    {
      this.jsonrpc := jsonrpc;
    }
  }
}
