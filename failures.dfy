/**
 * Java throwables as the model sees them: the runtime class, the names of
 * its superclasses (for `instanceof`), `getMessage()`, and the extra state
 * of the two exception classes of the library that carry an error code.
 */
module Failures {
  import opened Common
  import opened JsonTree

  /** The code and data of a `JsonServiceException`; `Plain` for every other class. */
  datatype Detail = Plain | ServiceError(code: int, data: Option<Json>)

  datatype Throwable = Throwable(className: string, supertypes: set<string>, message: Option<string>, detail: Detail)

  /** `cls.isInstance(t)`. */
  predicate IsInstance(t: Throwable, cls: string)
  {
    cls == t.className || cls in t.supertypes
  }

  /** The outcome of a Java call: a value, or the throwable it raised. */
  datatype Result<+T> = Ok(value: T) | Err(thrown: Throwable)

  const RuntimeSupers: set<string> := {"java.lang.RuntimeException", "java.lang.Exception", "java.lang.Throwable"}
  const CheckedSupers: set<string> := {"java.lang.Exception", "java.lang.Throwable"}

  function NullPointer(): Throwable
  {
    Throwable("java.lang.NullPointerException", RuntimeSupers, None, Plain)
  }

  function ClassCast(): Throwable
  {
    Throwable("java.lang.ClassCastException", RuntimeSupers, None, Plain)
  }

  function IndexOutOfBounds(): Throwable
  {
    Throwable("java.lang.IndexOutOfBoundsException", RuntimeSupers, None, Plain)
  }

  function IllegalArgument(message: Option<string>): Throwable
  {
    Throwable("java.lang.IllegalArgumentException", RuntimeSupers, message, Plain)
  }

  function NumberFormat(): Throwable
  {
    Throwable("java.lang.NumberFormatException", RuntimeSupers + {"java.lang.IllegalArgumentException"}, None, Plain)
  }

  /** Jackson's `EOFException` when an `ObjectMapper` is asked to map a stream that holds no value. */
  function NoContent(): Throwable
  {
    Throwable("java.io.EOFException", CheckedSupers + {"java.io.IOException"}, Some("No content to map to Object due to end of input"), Plain)
  }

  /** Jackson's own parse error for input that is not JSON. */
  function JacksonParseError(): Throwable
  {
    Throwable("org.codehaus.jackson.JsonParseException", CheckedSupers + {"java.io.IOException"}, None, Plain)
  }

  /** `Throwable.toString()`: the class name, then ": " and the message when there is one. */
  function Describe(t: Throwable): string
  {
    t.className + (if t.message.Some? then ": " + t.message.value else "")
  }

  /** `new JsonException(cause)`: its message is the cause's description. */
  function JsonExceptionWrapping(cause: Throwable): Throwable
  {
    JsonException(Some(Describe(cause)))
  }

  /** `com.googlecode.jsonrpc4j.JsonException`, a checked exception. */
  function JsonException(message: Option<string>): Throwable
  {
    Throwable("com.googlecode.jsonrpc4j.JsonException", CheckedSupers, message, Plain)
  }

  /** `com.googlecode.jsonrpc4j.JsonParseException` of the trunk line, a checked exception. */
  function JsonParseException(message: Option<string>): Throwable
  {
    Throwable("com.googlecode.jsonrpc4j.JsonParseException", CheckedSupers, message, Plain)
  }

  /**
   * What a method's exception looks like after Spring's
   * `ReflectionUtils.invokeMethod`: a runtime exception or an error passes
   * unchanged; a checked one arrives wrapped in an
   * `UndeclaredThrowableException` without a message.
   */
  function Surfaced(t: Throwable): Throwable
  {
    if IsInstance(t, "java.lang.RuntimeException") || IsInstance(t, "java.lang.Error") then t
    else Throwable("java.lang.reflect.UndeclaredThrowableException", RuntimeSupers, None, Plain)
  }

  /** `new JsonServiceException(code, message, data)`, an unchecked exception. */
  function JsonServiceException(code: int, message: Option<string>, data: Option<Json>): Throwable
  {
    Throwable("com.googlecode.jsonrpc4j.spring.JsonServiceException", RuntimeSupers, message, ServiceError(code, data))
  }

  /** The exception the JSON library of org.json or json-lib raises for a missing key or a bad value. */
  function JSONException(): Throwable
  {
    Throwable("org.json.JSONException", CheckedSupers, None, Plain)
  }
}
