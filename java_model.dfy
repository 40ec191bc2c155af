/**
 * The Java reflection entities the library inspects: classes and their
 * public methods, parameter types and the library's own annotations, and
 * the runtime values (boxed primitives, strings, enums, arrays,
 * collections, beans and the JSON objects of org.json / json-lib) that
 * flow through the type converters.
 */
module JavaModel {
  import opened Common
  import opened JsonTree

  /** The primitive types of the model; `float` and `double` are left out. */
  datatype PrimitiveKind = PBoolean | PChar | PByte | PShort | PInt | PLong

  /** A bean property: its name and declared type. */
  datatype Property = Property(name: string, ptype: ClassRef)

  /** A `Class<?>` object. */
  datatype ClassRef =
    | PrimitiveType(kind: PrimitiveKind)   // int.class, boolean.class, ...
    | Boxed(kind: PrimitiveKind)           // Integer.class, Boolean.class, ...
    | StringType
    | BigIntegerType
    | BigDecimalType
    | NumberType
    | ObjectType
    | EnumType(enumName: string, constants: seq<string>)
    | ArrayType(component: ClassRef)
    | CollectionType(collectionName: string)
    | JSONObjectType                    // json-lib's JSONObject
    | JSONArrayType                     // json-lib's JSONArray
    | OrgObjectType                     // org.json's JSONObject
    | OrgArrayType                      // org.json's JSONArray
    | JSONNullType                      // json-lib's JSONNull; also the class of org.json's JSONObject.NULL
    | DateType
    | UrlType
    | BeanType(beanName: string, properties: seq<Property>)

  /** A Java object reference; `Null` is the null reference. */
  datatype JValue =
    | Null
    | BoolVal(b: bool)
    | CharVal(c: char)
    | IntegralVal(kind: PrimitiveKind, n: int)   // a boxed Byte, Short, Integer or Long
    | BigIntegerVal(n: int)
    | BigDecimalVal(n: int)                      // integral BigDecimal values only
    | StrVal(s: string)
    | EnumVal(etype: ClassRef, name: string)
    | ArrayVal(component: ClassRef, elements: seq<JValue>)
    | CollectionVal(collectionName: string, elements: seq<JValue>)
    | JSONObjectVal(members: map<string, Json>)
    | JSONArrayVal(entries: seq<Json>)
    | OrgObjectVal(fields: map<string, JValue>) // org.json's JSONObject: it never stores a null value
    | OrgArrayVal(list: seq<JValue>)            // org.json's JSONArray
    | JSONNullVal                               // org.json's JSONObject.NULL, json-lib's JSONNull
    | DateVal(millis: int)
    | UrlVal(text: string)
    | BeanVal(btype: ClassRef, values: seq<JValue>)

  /** `value.getClass()`; None for the null reference (where Java raises a NullPointerException). */
  function ClassOf(v: JValue): (r: Option<ClassRef>)
    ensures r.None? <==> v.Null?
  {
    match v
    case Null => None
    case BoolVal(_) => Some(Boxed(PBoolean))
    case CharVal(_) => Some(Boxed(PChar))
    case IntegralVal(k, _) => Some(Boxed(k))
    case BigIntegerVal(_) => Some(BigIntegerType)
    case BigDecimalVal(_) => Some(BigDecimalType)
    case StrVal(_) => Some(StringType)
    case EnumVal(t, _) => Some(t)
    case ArrayVal(c, _) => Some(ArrayType(c))
    case CollectionVal(name, _) => Some(CollectionType(name))
    case JSONObjectVal(_) => Some(JSONObjectType)
    case JSONArrayVal(_) => Some(JSONArrayType)
    case OrgObjectVal(_) => Some(OrgObjectType)
    case OrgArrayVal(_) => Some(OrgArrayType)
    case JSONNullVal => Some(JSONNullType)
    case DateVal(_) => Some(DateType)
    case UrlVal(_) => Some(UrlType)
    case BeanVal(t, _) => Some(t)
  }

  predicate IsNumberClass(c: ClassRef)
  {
    (c.Boxed? && c.kind in {PByte, PShort, PInt, PLong}) || c == BigIntegerType || c == BigDecimalType
  }

  /**
   * `target.isAssignableFrom(source)` restricted to the class hierarchy of
   * the model: a class, `Object` for every reference class and `Number`
   * for the numeric wrappers.
   */
  predicate IsAssignableFrom(target: ClassRef, source: ClassRef)
  {
    target == source
    || (target == ObjectType && !source.PrimitiveType?)
    || (target == NumberType && IsNumberClass(source))
  }

  /** `Class.getName()`. */
  function JavaName(c: ClassRef): string
    decreases c, 0
  {
    match c
    case PrimitiveType(k) => PrimitiveName(k)
    case Boxed(k) => "java.lang." + BoxedName(k)
    case StringType => "java.lang.String"
    case BigIntegerType => "java.math.BigInteger"
    case BigDecimalType => "java.math.BigDecimal"
    case NumberType => "java.lang.Number"
    case ObjectType => "java.lang.Object"
    case EnumType(name, _) => name
    case ArrayType(component) => "[" + Descriptor(component)
    case CollectionType(name) => name
    case JSONObjectType => "net.sf.json.JSONObject"
    case JSONArrayType => "net.sf.json.JSONArray"
    case OrgObjectType => "org.json.JSONObject"
    case OrgArrayType => "org.json.JSONArray"
    case JSONNullType => "net.sf.json.JSONNull"
    case DateType => "java.util.Date"
    case UrlType => "java.net.URL"
    case BeanType(name, _) => name
  }

  /** The type descriptor of an array component. */
  function Descriptor(c: ClassRef): string
    decreases c, 1
  {
    match c
    case PrimitiveType(k) =>
      (match k
       case PBoolean => "Z"
       case PChar => "C"
       case PByte => "B"
       case PShort => "S"
       case PInt => "I"
       case PLong => "J")
    case ArrayType(component) => "[" + Descriptor(component)
    case _ => "L" + JavaName(c) + ";"
  }

  function PrimitiveName(k: PrimitiveKind): string
  {
    match k
    case PBoolean => "boolean"
    case PChar => "char"
    case PByte => "byte"
    case PShort => "short"
    case PInt => "int"
    case PLong => "long"
  }

  function BoxedName(k: PrimitiveKind): string
  {
    match k
    case PBoolean => "Boolean"
    case PChar => "Character"
    case PByte => "Byte"
    case PShort => "Short"
    case PInt => "Integer"
    case PLong => "Long"
  }

  /** Java's widening primitive conversions among the modelled kinds (and identity). */
  predicate Widens(from: PrimitiveKind, to: PrimitiveKind)
  {
    from == to
    || (from == PByte && to in {PShort, PInt, PLong})
    || (from == PShort && to in {PInt, PLong})
    || (from == PChar && to in {PInt, PLong})
    || (from == PInt && to == PLong)
  }

  /** The primitive kind a boxed value unwraps to. */
  function Unboxed(v: JValue): Option<PrimitiveKind>
  {
    match v
    case BoolVal(_) => Some(PBoolean)
    case CharVal(_) => Some(PChar)
    case IntegralVal(k, _) => Some(k)
    case _ => None
  }

  /** Whether `Array.set` (and, alike, `Method.invoke` for a parameter) accepts a value for the component type. */
  predicate Storable(component: ClassRef, v: JValue)
  {
    if component.PrimitiveType? then Unboxed(v).Some? && Widens(Unboxed(v).value, component.kind)
    else v.Null? || IsAssignableFrom(component, ClassOf(v).value)
  }

  /** The element an array of the component type holds after `Array.set`: a primitive is widened. */
  function StoredElement(component: ClassRef, v: JValue): JValue
  {
    if component.PrimitiveType? && v.IntegralVal? then IntegralVal(component.kind, v.n)
    else if component.PrimitiveType? && v.CharVal? && component.kind != PChar then IntegralVal(component.kind, v.c as int)
    else v
  }

  /** An element of `@JsonRpcErrors`: an exception class mapped to an error code, message and data. */
  datatype ErrorMapping = ErrorMapping(exception: string, code: int, message: string, data: string)

  datatype Annotation =
    | ParamName(value: string)                  // @JsonRpcParamName
    | RpcErrors(mappings: seq<ErrorMapping>)    // @JsonRpcErrors
    | OtherAnnotation(typeName: string)

  datatype AnnotationType = ParamNameType | RpcErrorsType | OtherType(typeName: string)

  /** `type.isInstance(a)`. */
  predicate HasType(a: Annotation, t: AnnotationType)
  {
    match a
    case ParamName(_) => t == ParamNameType
    case RpcErrors(_) => t == RpcErrorsType
    case OtherAnnotation(n) => t == OtherType(n)
  }

  /** A public method: its name, parameter types, method annotations and annotations per parameter. */
  datatype MethodInfo = MethodInfo(
    name: string,
    paramTypes: seq<ClassRef>,
    annotations: seq<Annotation>,
    paramAnnotations: seq<seq<Annotation>>)

  function Arity(m: MethodInfo): nat
  {
    |m.paramTypes|
  }

  /** A binary class name; the JVM admits no ':' in one. */
  type ClassName = s: string | forall i :: 0 <= i < |s| ==> s[i] != ':' witness ""

  /** A class and its public methods (`getMethods()`). */
  datatype JavaClass = JavaClass(name: ClassName, methods: seq<MethodInfo>)

  /** The public methods of `c` called `name`. */
  function NamedMethods(c: JavaClass, name: string): set<MethodInfo>
  {
    set m | m in c.methods && m.name == name
  }

  /**
   * The iteration order of a `HashSet` of methods: the element its
   * iterator yields first.  It depends on hash codes, which are outside
   * the model.
   */
  datatype HashOrder = HashOrder(next: set<MethodInfo> -> MethodInfo)

  ghost predicate Picks(order: HashOrder)
  {
    forall s: set<MethodInfo> :: s != {} ==> order.next(s) in s
  }
}
