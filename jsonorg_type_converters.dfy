/**
 * The `TypeConverter`s of the org.json binding: how a class the converter
 * supports is turned into a JSON value and back.  The four built-in
 * converters (primitives, URLs, dates, enums) are modelled as written; a
 * converter registered by an application is an arbitrary triple of
 * functions.
 */
module TypeConverters {
  import opened Common
  import opened Failures
  import opened JavaModel

  /**
   * What the converters take from the Java platform and from org.json
   * without the model computing it: the `toString()` of values whose text
   * is outside the model, date formatting and parsing with a
   * `SimpleDateFormat` pattern (time-zone dependent), whether a text is a
   * well-formed URL, and org.json's serializer and string quoting.
   */
  datatype Platform = Platform(
    otherText: JValue -> string,
    formatDate: (string, int) -> string,
    parseDate: (string, string) -> Option<int>,
    isUrl: string -> bool,
    jsonText: (JValue, nat) -> string,
    quote: string -> string)

  /** `object.toString()` (for the null reference, `String.valueOf`'s "null"). */
  function ToText(p: Platform, v: JValue): string
  {
    match v
    case Null => "null"
    case BoolVal(b) => if b then "true" else "false"
    case CharVal(c) => [c]
    case IntegralVal(_, n) => IntToString(n)
    case BigIntegerVal(n) => IntToString(n)
    case BigDecimalVal(n) => IntToString(n)
    case StrVal(s) => s
    case EnumVal(_, name) => name
    case UrlVal(text) => text
    case JSONNullVal => "null"
    case _ => p.otherText(v)
  }

  function ArrayStore(): Throwable
  {
    Throwable("java.lang.ArrayStoreException", RuntimeSupers, None, Plain)
  }

  function MalformedUrl(): Throwable
  {
    Throwable("java.net.MalformedURLException", CheckedSupers + {"java.io.IOException"}, None, Plain)
  }

  function DateParseError(): Throwable
  {
    Throwable("java.text.ParseException", CheckedSupers, None, Plain)
  }

  /** The pattern of `new DateTypeConverter()`. */
  const DefaultDatePattern := "yyyy-MM-dd HH:mm:ss,SSS"

  datatype TypeConverter =
    | PrimitiveConverter
    | UrlConverter
    | DateConverter(pattern: string)
    | EnumConverter
    | CustomConverter(
        supportsClass: ClassRef -> bool,
        toJson: (JValue, ClassRef) -> Result<JValue>,
        fromJson: (JValue, ClassRef) -> Result<JValue>)

  /** `PrimitiveTypeConverter.supports`: primitive classes, `Boolean`, the `Number` classes and `String`. */
  function PrimitiveSupports(clazz: ClassRef): (r: bool)
    ensures r <==> clazz.PrimitiveType? || clazz == Boxed(PBoolean) || clazz == StringType
                   || clazz == NumberType || IsNumberClass(clazz)
    ensures clazz == Boxed(PChar) || clazz == ObjectType ==> !r
  {
    clazz.PrimitiveType?
    || IsAssignableFrom(Boxed(PBoolean), clazz)
    || IsAssignableFrom(NumberType, clazz)
    || IsAssignableFrom(StringType, clazz)
  }

  /** `converter.supports(clazz)`. */
  function Supports(c: TypeConverter, clazz: ClassRef): bool
  {
    match c
    case PrimitiveConverter => PrimitiveSupports(clazz)
    case UrlConverter => clazz == UrlType
    case DateConverter(_) => clazz == DateType
    case EnumConverter => clazz.EnumType?
    case CustomConverter(supportsClass, _, _) => supportsClass(clazz)
  }

  /**
   * `converter.toJSON(object, clazz)`: the primitive converter hands the
   * object back, the URL converter gives its text, the date converter its
   * formatted text and the enum converter the constant's name.
   */
  function ConverterToJson(p: Platform, c: TypeConverter, v: JValue, clazz: ClassRef): (r: Result<JValue>)
    ensures c.PrimitiveConverter? ==> r == Ok(v)
    ensures c.EnumConverter? && v.EnumVal? ==> r == Ok(StrVal(v.name))
    ensures c.EnumConverter? && !v.EnumVal? ==> r.Err?
  {
    match c
    case PrimitiveConverter => Ok(v)
    case UrlConverter => if v.Null? then Err(NullPointer()) else Ok(StrVal(ToText(p, v)))
    case DateConverter(pattern) =>
      if v.DateVal? then Ok(StrVal(p.formatDate(pattern, v.millis)))
      else if v.Null? then Err(NullPointer())
      else Err(ClassCast())
    case EnumConverter =>
      if v.EnumVal? then Ok(StrVal(v.name))
      else if v.Null? then Err(NullPointer())
      else Err(ClassCast())
    case CustomConverter(_, toJson, _) => toJson(v, clazz)
  }

  /** The first of the constants named `name`, if any. */
  function ConstantNamed(constants: seq<string>, name: string): (r: Option<string>)
    ensures r.Some? <==> name in constants
    ensures r.Some? ==> r.value == name
  {
    if |constants| == 0 then None
    else if constants[0] == name then Some(constants[0])
    else ConstantNamed(constants[1..], name)
  }

  /**
   * `EnumTypeConverter.fromJSON`: the constant of the enum class whose
   * name is the object's text, or null when there is none.  For a class
   * that is no enum, `getEnumConstants()` is null and the loop raises a
   * `NullPointerException`; so does a null object once there is a
   * constant to compare with.
   */
  function EnumFromJson(p: Platform, v: JValue, clazz: ClassRef): (r: Result<JValue>)
    ensures clazz.EnumType? && !v.Null? ==>
      r == (if ToText(p, v) in clazz.constants then Ok(EnumVal(clazz, ToText(p, v))) else Ok(Null))
    ensures !clazz.EnumType? ==> r.Err?
  {
    if !clazz.EnumType? then Err(NullPointer())
    else if |clazz.constants| == 0 then Ok(Null)
    else if v.Null? then Err(NullPointer())
    else
      match ConstantNamed(clazz.constants, ToText(p, v))
      case Some(name) => Ok(EnumVal(clazz, name))
      case None => Ok(Null)
  }

  /**
   * `converter.fromJSON(object, clazz)`: identity for primitives, a URL
   * or a date parsed from the object's text, an enum constant by name.
   */
  function ConverterFromJson(p: Platform, c: TypeConverter, v: JValue, clazz: ClassRef): (r: Result<JValue>)
    ensures c.PrimitiveConverter? ==> r == Ok(v)
  {
    match c
    case PrimitiveConverter => Ok(v)
    case UrlConverter =>
      if v.Null? then Err(NullPointer())
      else if p.isUrl(ToText(p, v)) then Ok(UrlVal(ToText(p, v)))
      else Err(MalformedUrl())
    case DateConverter(pattern) =>
      if v.Null? then Err(NullPointer())
      else
        (match p.parseDate(pattern, ToText(p, v))
         case Some(millis) => Ok(DateVal(millis))
         case None => Err(DateParseError()))
    case EnumConverter => EnumFromJson(p, v, clazz)
    case CustomConverter(_, _, fromJson) => fromJson(v, clazz)
  }

  /** `EnumTypeConverter.fromJSON` as the loop over `getEnumConstants()` that returns at the first match. */
  method EnumConstantFromJson(p: Platform, v: JValue, clazz: ClassRef) returns (r: Result<JValue>)
    ensures r == EnumFromJson(p, v, clazz)
  {
    if !clazz.EnumType? {
      return Err(NullPointer());
    }
    var constants := clazz.constants;
    var i := 0;
    while i < |constants|
      invariant 0 <= i <= |constants|
      invariant forall j :: 0 <= j < i ==> constants[j] != ToText(p, v)
      invariant i > 0 ==> !v.Null?
    {
      if v.Null? {
        return Err(NullPointer());
      }
      if constants[i] == ToText(p, v) {
        return Ok(EnumVal(clazz, constants[i]));
      }
      i := i + 1;
    }
    return Ok(Null);
  }

  /** `converter.fromJSON(object, clazz)`, running the enum converter's loop. */
  method CallFromJson(p: Platform, c: TypeConverter, v: JValue, clazz: ClassRef) returns (r: Result<JValue>)
    ensures r == ConverterFromJson(p, c, v, clazz)
  {
    if c.EnumConverter? {
      r := EnumConstantFromJson(p, v, clazz);
    } else {
      r := ConverterFromJson(p, c, v, clazz);
    }
  }

  /** An enum constant survives `toJSON` then `fromJSON` with its own class. */
  lemma EnumRoundTrip(p: Platform, t: ClassRef, name: string)
    requires t.EnumType? && name in t.constants
    ensures ConverterToJson(p, EnumConverter, EnumVal(t, name), t) == Ok(StrVal(name))
    ensures ConverterFromJson(p, EnumConverter, StrVal(name), t) == Ok(EnumVal(t, name))
  {
  }

  /** A text that names no constant gives null rather than an error. */
  lemma EnumUnknownName(p: Platform, v: JValue, t: ClassRef)
    requires t.EnumType? && !v.Null? && ToText(p, v) !in t.constants
    ensures ConverterFromJson(p, EnumConverter, v, t) == Ok(Null)
  {
  }
}
