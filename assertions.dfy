/**
 * `Assertions` of the Spring exporter line: conditional throws of a
 * `JsonServiceException` (which the exporter turns into an error response
 * with the negated code).  A throw is an `Err` result.
 */
module Assertions {
  import opened Common
  import opened JsonTree
  import opened JavaModel
  import opened Failures

  const GenericErrorCode: int := 500

  /** A service-level failure with exactly this code, message and data. */
  predicate Raises(r: Result<()>, code: int, message: Option<string>, data: Option<Json>)
  {
    r == Err(JsonServiceException(code, message, data))
  }

  /** `isTrue(bool, code, message, data)`. */
  function IsTrue(b: bool, code: int, message: Option<string>, data: Option<Json>): (r: Result<()>)
    ensures r.Ok? <==> b
    ensures !b ==> Raises(r, code, message, data)
  {
    if !b then Err(JsonServiceException(code, message, data)) else Ok(())
  }

  /** `isTrue(bool, code, message)`: no data. */
  function IsTrueWithMessage(b: bool, code: int, message: Option<string>): (r: Result<()>)
    ensures r.Ok? <==> b
    ensures !b ==> Raises(r, code, message, None)
  {
    IsTrue(b, code, message, None)
  }

  /** `isTrue(bool, code)`: no message, no data. */
  function IsTrueWithCode(b: bool, code: int): (r: Result<()>)
    ensures r.Ok? <==> b
    ensures !b ==> Raises(r, code, None, None)
  {
    IsTrue(b, code, None, None)
  }

  /** `isTrue(bool, message)`: the generic code 500. */
  function IsTrueGeneric(b: bool, message: Option<string>): (r: Result<()>)
    ensures r.Ok? <==> b
    ensures !b ==> Raises(r, GenericErrorCode, message, None)
  {
    IsTrue(b, GenericErrorCode, message, None)
  }

  /** `isFalse(bool, code, message, data)` as written: the data argument is not passed on. */
  function IsFalse(b: bool, code: int, message: Option<string>, data: Option<Json>): (r: Result<()>)
    ensures r.Ok? <==> !b
    ensures b ==> Raises(r, code, message, None)
  {
    IsTrue(!b, code, message, None)
  }

  /** `isFalse` with its data passed on, as the parameter list promises. */
  function IsFalseKeepingData(b: bool, code: int, message: Option<string>, data: Option<Json>): (r: Result<()>)
    ensures r.Ok? <==> !b
    ensures b ==> Raises(r, code, message, data)
  {
    IsTrue(!b, code, message, data)
  }

  /** The written `isFalse` loses the data it is given. */
  lemma IsFalseDropsData(code: int, message: Option<string>, data: Json)
    ensures IsFalse(true, code, message, Some(data)) != IsFalseKeepingData(true, code, message, Some(data))
  {
  }

  /** `isFalse(bool, code, message)`. */
  function IsFalseWithMessage(b: bool, code: int, message: Option<string>): (r: Result<()>)
    ensures r.Ok? <==> !b
    ensures b ==> Raises(r, code, message, None)
  {
    IsTrue(!b, code, message, None)
  }

  /** `isFalse(bool, code)`. */
  function IsFalseWithCode(b: bool, code: int): (r: Result<()>)
    ensures r.Ok? <==> !b
    ensures b ==> Raises(r, code, None, None)
  {
    IsTrue(!b, code, None, None)
  }

  /** `isFalse(bool, message)`. */
  function IsFalseGeneric(b: bool, message: Option<string>): (r: Result<()>)
    ensures r.Ok? <==> !b
    ensures b ==> Raises(r, GenericErrorCode, message, None)
  {
    IsTrue(!b, GenericErrorCode, message, None)
  }

  /** `notNull(val, code, message, data)` as written: the data argument is not passed on. */
  function NotNull(v: JValue, code: int, message: Option<string>, data: Option<Json>): (r: Result<()>)
    ensures r.Ok? <==> !v.Null?
    ensures v.Null? ==> Raises(r, code, message, None)
  {
    IsTrue(!v.Null?, code, message, None)
  }

  /** `notNull` with its data passed on. */
  function NotNullKeepingData(v: JValue, code: int, message: Option<string>, data: Option<Json>): (r: Result<()>)
    ensures r.Ok? <==> !v.Null?
    ensures v.Null? ==> Raises(r, code, message, data)
  {
    IsTrue(!v.Null?, code, message, data)
  }

  /** The written `notNull` loses the data it is given. */
  lemma NotNullDropsData(code: int, message: Option<string>, data: Json)
    ensures NotNull(Null, code, message, Some(data)) != NotNullKeepingData(Null, code, message, Some(data))
  {
  }

  /** `notNull(val, code, message)`. */
  function NotNullWithMessage(v: JValue, code: int, message: Option<string>): (r: Result<()>)
    ensures r.Ok? <==> !v.Null?
    ensures v.Null? ==> Raises(r, code, message, None)
  {
    IsTrue(!v.Null?, code, message, None)
  }

  /** `notNull(val, code)`. */
  function NotNullWithCode(v: JValue, code: int): (r: Result<()>)
    ensures r.Ok? <==> !v.Null?
    ensures v.Null? ==> Raises(r, code, None, None)
  {
    IsTrue(!v.Null?, code, None, None)
  }

  /** `notNull(val, message)`. */
  function NotNullGeneric(v: JValue, message: Option<string>): (r: Result<()>)
    ensures r.Ok? <==> !v.Null?
    ensures v.Null? ==> Raises(r, GenericErrorCode, message, None)
  {
    IsTrue(!v.Null?, GenericErrorCode, message, None)
  }
}
