/**
 * `JsonRpcUtils` of the trunk line, over json-lib's `JSONObject`: the
 * request accessors, `convertType` (a json-lib value to a parameter of a
 * given class), the search for the methods of the requested name, and
 * `getParameters`, which binds a request's parameters to one method or
 * answers null when the method does not fit.
 *
 * A json-lib object is a map from keys to JSON values: `JNull` is
 * `JSONNull`, a number is an `Integer`, a `Long` or a `BigInteger` by its
 * size, and an array or object is a `JSONArray` or `JSONObject`.
 * `JSONObject.toBean` is the `ToBean` oracle.
 */
module TrunkRpcUtils {
  import opened Common
  import opened JsonTree
  import opened Failures
  import opened JavaModel
  import SpringExporter

  /** `JSONObject.toBean(object, type)`. */
  type ToBean = (map<string, Json>, ClassRef) -> Result<JValue>

  /** json-lib's `JSONException`, an unchecked exception. */
  function LibException(message: string): Throwable
  {
    Throwable("net.sf.json.JSONException", RuntimeSupers, Some(message), Plain)
  }

  function NotFound(key: string): Throwable
  {
    LibException("JSONObject[\"" + key + "\"] not found.")
  }

  function NotAJSONObject(key: string): Throwable
  {
    LibException("JSONObject[\"" + key + "\"] is not a JSONObject.")
  }

  function StringIndexOutOfBounds(): Throwable
  {
    Throwable("java.lang.StringIndexOutOfBoundsException", RuntimeSupers + {"java.lang.IndexOutOfBoundsException"}, None, Plain)
  }

  // ----- values as json-lib holds them -----

  /** The range of a Java integral primitive type. */
  predicate InRange(k: PrimitiveKind, n: int)
  {
    match k
    case PByte => -0x80 <= n < 0x80
    case PShort => -0x8000 <= n < 0x8000
    case PInt => -0x8000_0000 <= n < 0x8000_0000
    case PLong => -0x8000_0000_0000_0000 <= n < 0x8000_0000_0000_0000
    case PChar => 0 <= n < 0x1_0000
    case PBoolean => false
  }

  /** The class of the object json-lib stores for a node. */
  function LibClass(node: Json): (c: ClassRef)
    ensures !c.ArrayType? && !c.PrimitiveType?
  {
    match node
    case JNull => JSONNullType
    case JBool(_) => Boxed(PBoolean)
    case JNum(n) => if InRange(PInt, n) then Boxed(PInt) else if InRange(PLong, n) then Boxed(PLong) else BigIntegerType
    case JStr(_) => StringType
    case JArr(_) => JSONArrayType
    case JObj(_) => JSONObjectType
  }

  /** The object json-lib stores for a node. */
  function LibValue(node: Json): (v: JValue)
    ensures ClassOf(v) == Some(LibClass(node))
  {
    match node
    case JNull => JSONNullVal
    case JBool(b) => BoolVal(b)
    case JNum(n) => if InRange(PInt, n) then IntegralVal(PInt, n) else if InRange(PLong, n) then IntegralVal(PLong, n) else BigIntegerVal(n)
    case JStr(s) => StrVal(s)
    case JArr(items) => JSONArrayVal(items)
    case JObj(fields) => JSONObjectVal(fields)
  }

  /** `toString()` of a stored value; arrays and objects are rendered by `containerText`. */
  function LibText(node: Json, containerText: Json -> string): string
  {
    match node
    case JNull => "null"
    case JBool(b) => if b then "true" else "false"
    case JNum(n) => IntToString(n)
    case JStr(s) => s
    case _ => containerText(node)
  }

  // ----- request accessors -----

  /** `getString(key)`: the text of the member; a missing member is a `JSONException`. */
  function GetString(req: map<string, Json>, key: string, containerText: Json -> string): (r: Result<string>)
    ensures r.Err? <==> key !in req
    ensures r.Err? ==> r.thrown == NotFound(key)
    ensures key in req && req[key].JStr? ==> r == Ok(req[key].s)
  {
    if key in req then Ok(LibText(req[key], containerText)) else Err(NotFound(key))
  }

  /** `getMethod`. */
  function GetMethod(req: map<string, Json>, containerText: Json -> string): Result<string>
  {
    GetString(req, "method", containerText)
  }

  /**
   * `isNotification` as written: "no id" and "empty id" joined by `&&`,
   * so the second test reads the id exactly when it is missing.
   */
  function IsNotificationAsWritten(req: map<string, Json>, containerText: Json -> string): (r: Result<bool>)
    ensures r.Err? <==> "id" !in req
    ensures r != Ok(true)
  {
    if "id" in req then Ok(false)
    else
      match GetString(req, "id", containerText)
      case Ok(id) => Ok(|id| == 0)
      case Err(e) => Err(e)
  }

  /** The written test never recognises a notification: without an id it throws, with one it says no. */
  lemma NotificationNeverRecognised(req: map<string, Json>, containerText: Json -> string)
    ensures "id" !in req ==> IsNotificationAsWritten(req, containerText) == Err(NotFound("id"))
    ensures "id" in req ==> IsNotificationAsWritten(req, containerText) == Ok(false)
    ensures IsNotificationAsWritten(req, containerText) != Ok(true)
  {
  }

  /** `isNotification` with the tests joined by `||`: a missing or empty id. */
  function IsNotification(req: map<string, Json>, containerText: Json -> string): (r: bool)
    ensures "id" !in req ==> r
    ensures "id" in req && req["id"].JStr? ==> (r <==> req["id"].s == "")
  {
    !("id" in req) || |GetString(req, "id", containerText).value| == 0
  }

  /**
   * A present id makes a notification exactly when it reads as empty text
   * (a missing id is covered by `IsNotification`'s own contract); a null or
   * numeric id never does.
   */
  lemma NotificationIffNoId(req: map<string, Json>, containerText: Json -> string)
    ensures "id" in req ==> (IsNotification(req, containerText) <==> LibText(req["id"], containerText) == "")
    ensures "id" in req && (req["id"].JNull? || req["id"].JNum?) ==> !IsNotification(req, containerText)
  {
    if "id" in req && req["id"].JNum? {
      assert |IntToString(req["id"].n)| > 0;
    }
  }

  /** `getId`: null for a notification, otherwise the text of the id. */
  function GetId(req: map<string, Json>, containerText: Json -> string): (r: Option<string>)
    ensures r.None? <==> IsNotification(req, containerText)
    ensures r.Some? ==> "id" in req && r.value == LibText(req["id"], containerText) && r.value != ""
  {
    if IsNotification(req, containerText) then None else Some(GetString(req, "id", containerText).value)
  }

  /** `isParamsIndexed`: whether the params member is a `JSONArray`; a missing member is dereferenced. */
  function IsParamsIndexed(req: map<string, Json>): (r: Result<bool>)
    ensures r.Err? <==> "params" !in req
    ensures r.Err? ==> r.thrown == NullPointer()
    ensures r.Ok? ==> (r.value <==> req["params"].JArr?)
  {
    if "params" !in req then Err(NullPointer()) else Ok(LibClass(req["params"]) == JSONArrayType)
  }

  /**
   * `getParamCount`: the array length for indexed params, else the key
   * count of the params object (json-lib reads `JSONNull` as an empty
   * object, anything else is not an object).
   */
  function GetParamCount(req: map<string, Json>): (r: Result<nat>)
    ensures "params" !in req ==> r == Err(NullPointer())
    ensures r.Ok? ==> "params" in req
    ensures "params" in req && req["params"].JArr? ==> r == Ok(|req["params"].items|)
    ensures "params" in req && req["params"].JObj? ==> r == Ok(|req["params"].fields|)
    ensures "params" in req && req["params"].JNull? ==> r == Ok(0)
    ensures "params" in req && !(req["params"].JArr? || req["params"].JObj? || req["params"].JNull?) ==>
      r == Err(NotAJSONObject("params"))
  {
    var indexed := IsParamsIndexed(req);
    if indexed.Err? then Err(indexed.thrown)
    else
      var params := req["params"];
      if indexed.value then Ok(|params.items|)
      else if params.JNull? then Ok(0)
      else if params.JObj? then Ok(|params.fields|)
      else Err(NotAJSONObject("params"))
  }

  /** `getParamName(method, index)`: the first `JsonRpcParamName` of that parameter, null past the last one. */
  function GetParamName(m: MethodInfo, index: nat): (r: Option<string>)
    ensures index >= |m.paramAnnotations| ==> r.None?
    ensures index < |m.paramAnnotations| ==> r == SpringExporter.FirstParamName(m.paramAnnotations[index])
  {
    if index >= |m.paramAnnotations| then None else SpringExporter.FirstParamName(m.paramAnnotations[index])
  }

  /** `getPotentialMethods`: the service methods carrying the requested name. */
  method GetPotentialMethods(req: map<string, Json>, serviceMethods: set<MethodInfo>, containerText: Json -> string)
    returns (r: Result<set<MethodInfo>>)
    ensures serviceMethods != {} && "method" !in req ==> r == Err(NotFound("method"))
    ensures serviceMethods == {} ==> r == Ok({})
    ensures "method" in req ==> r == Ok(set m | m in serviceMethods && m.name == GetMethod(req, containerText).value)
  {
    var methods: set<MethodInfo> := {};
    var unseen := serviceMethods;
    while unseen != {}
      invariant unseen <= serviceMethods
      invariant "method" in req ==>
        methods == set m | m in serviceMethods - unseen && m.name == GetMethod(req, containerText).value
      invariant unseen == serviceMethods ==> methods == {}
      invariant "method" !in req ==> unseen == serviceMethods
      decreases |unseen|
    {
      var m :| m in unseen;
      var name := GetMethod(req, containerText);
      if name.Err? {
        return Err(name.thrown);
      }
      if m.name == name.value {
        methods := methods + {m};
      }
      unseen := unseen - {m};
    }
    assert serviceMethods - unseen == serviceMethods;
    return Ok(methods);
  }

  // ----- convertType -----

  /** `Boolean.parseBoolean`: "true" in any letter case. */
  predicate ParsesAsTrue(s: string)
  {
    |s| == 4 && (s[0] == 't' || s[0] == 'T') && (s[1] == 'r' || s[1] == 'R') && (s[2] == 'u' || s[2] == 'U') && (s[3] == 'e' || s[3] == 'E')
  }

  /** `Byte.parseByte`, `Short.parseShort`, `Integer.parseInt`, `Long.parseLong` and their constructors. */
  function ParseIntegral(s: string, k: PrimitiveKind): (r: Result<JValue>)
    ensures r.Ok? ==> r.value.IntegralVal? && r.value.kind == k && InRange(k, r.value.n)
  {
    var n := ParseDecimal(s);
    if n.Some? && InRange(k, n.value) then Ok(IntegralVal(k, n.value)) else Err(NumberFormat())
  }

  /** The class a converted value has: a primitive type is autoboxed to its wrapper. */
  function Autoboxed(target: ClassRef): ClassRef
  {
    if target.PrimitiveType? then Boxed(target.kind) else target
  }

  /**
   * The last branch of `convertType`: the value's text parsed for the
   * target type.  A boolean target never fails, a character target fails
   * only on empty text, and whatever converts is of the target type.
   */
  function FromText(value: Json, target: ClassRef): (r: Result<JValue>)
    requires value.JBool? || value.JNum? || value.JStr?
    ensures r.Ok? ==> ClassOf(r.value) == Some(Autoboxed(target))
    ensures target in {PrimitiveType(PBoolean), Boxed(PBoolean)} ==> r.Ok?
    ensures target in {PrimitiveType(PChar), Boxed(PChar)} ==> (r.Err? <==> LibText(value, _ => "") == "")
    ensures target in {PrimitiveType(PChar), Boxed(PChar)} && r.Ok? ==> r.value == CharVal(LibText(value, _ => "")[0])
  {
    var text := LibText(value, _ => "");
    match target
    case PrimitiveType(PBoolean) => Ok(BoolVal(ParsesAsTrue(text)))
    case Boxed(PBoolean) => Ok(BoolVal(ParsesAsTrue(text)))
    case PrimitiveType(PChar) => if |text| == 0 then Err(StringIndexOutOfBounds()) else Ok(CharVal(text[0]))
    case Boxed(PChar) => if |text| == 0 then Err(StringIndexOutOfBounds()) else Ok(CharVal(text[0]))
    case PrimitiveType(k) => ParseIntegral(text, k)
    case Boxed(k) => ParseIntegral(text, k)
    case BigDecimalType => var n := ParseDecimal(text); if n.Some? then Ok(BigDecimalVal(n.value)) else Err(NumberFormat())
    case BigIntegerType => var n := ParseDecimal(text); if n.Some? then Ok(BigIntegerVal(n.value)) else Err(NumberFormat())
    case _ => Err(IllegalArgument(Some("Don't know how to convert " + JavaName(LibClass(value)) + " to " + JavaName(target))))
  }

  /**
   * `convertType(value, type)`: the value itself when its class is the
   * type, null for `JSONNull`, a bean for an object, an array of the
   * component type for an array, and otherwise its text parsed for the
   * type.
   */
  function ConvertType(value: Json, target: ClassRef, toBean: ToBean): (r: Result<JValue>)
    ensures (value.JBool? || value.JNum? || value.JStr?) && r.Ok? ==> ClassOf(r.value) == Some(Autoboxed(target))
    ensures value.JArr? && r.Ok? && target != JSONArrayType ==>
      r.value.ArrayVal? && |r.value.elements| == |value.items|
    decreases value, 1, 0
  {
    var component := if target.ArrayType? then target.component else target;
    if LibClass(value) == target then Ok(LibValue(value))
    else if value.JNull? then Ok(Null)
    else if value.JObj? then toBean(value.fields, target)
    else if value.JArr? then
      var elements := ConvertElements(value, component, toBean, |value.items|);
      if elements.Err? then Err(elements.thrown) else Ok(ArrayVal(component, elements.value))
    else if target.ArrayType? then Err(ClassCast())
    else FromText(value, target)
  }

  /** The first `n` elements of a `JSONArray` converted to the component type and stored with `Array.set`. */
  function ConvertElements(arr: Json, component: ClassRef, toBean: ToBean, n: nat): (r: Result<seq<JValue>>)
    requires arr.JArr? && n <= |arr.items|
    ensures r.Ok? ==> |r.value| == n
    decreases arr, 0, n
  {
    if n == 0 then Ok([])
    else
      var init := ConvertElements(arr, component, toBean, n - 1);
      if init.Err? then init
      else
        var v := ConvertType(arr.items[n - 1], component, toBean);
        if v.Err? then Err(v.thrown)
        else if !Storable(component, v.value) then Err(IllegalArgument(None))
        else Ok(init.value + [StoredElement(component, v.value)])
  }

  /** A value whose class is the target comes back unchanged; `JSONNull` for any other target is null. */
  lemma ConvertKeepsOrNulls(value: Json, target: ClassRef, toBean: ToBean)
    ensures LibClass(value) == target ==> ConvertType(value, target, toBean) == Ok(LibValue(value))
    ensures value.JNull? && target != JSONNullType ==> ConvertType(value, target, toBean) == Ok(Null)
  {
  }

  /** A number converted to an integral type that holds it is that number, through its decimal text. */
  lemma {:induction false} ConvertIntegral(n: int, k: PrimitiveKind, toBean: ToBean)
    requires k in {PByte, PShort, PInt, PLong} && InRange(k, n)
    ensures ConvertType(JNum(n), PrimitiveType(k), toBean) == Ok(IntegralVal(k, n))
    ensures ConvertType(JStr(IntToString(n)), PrimitiveType(k), toBean) == Ok(IntegralVal(k, n))
  {
    DecimalRoundTrip(n);
  }

  /** Text that is not a decimal in range never converts to an integral type. */
  lemma ConvertRejectsOutOfRange(s: string, k: PrimitiveKind, toBean: ToBean)
    requires k in {PByte, PShort, PInt, PLong}
    requires ParseDecimal(s).None? || !InRange(k, ParseDecimal(s).value)
    ensures ConvertType(JStr(s), PrimitiveType(k), toBean) == Err(NumberFormat())
    ensures ConvertType(JStr(s), Boxed(k), toBean) == Err(NumberFormat())
  {
  }

  /** A text, number or boolean has no conversion to a type outside the handled ones. */
  lemma ConvertUnsupported(value: Json, target: ClassRef, toBean: ToBean)
    requires value.JBool? || value.JNum? || value.JStr?
    requires LibClass(value) != target
    requires target in {StringType, ObjectType, NumberType, DateType, UrlType, JSONObjectType, JSONArrayType, JSONNullType}
    ensures ConvertType(value, target, toBean) ==
      Err(IllegalArgument(Some("Don't know how to convert " + JavaName(LibClass(value)) + " to " + JavaName(target))))
  {
  }

  /** An array converts to an array of the component type with one element per entry. */
  lemma ConvertArrayLength(items: seq<Json>, target: ClassRef, toBean: ToBean)
    requires target != JSONArrayType && ConvertType(JArr(items), target, toBean).Ok?
    ensures var v := ConvertType(JArr(items), target, toBean).value;
      v.ArrayVal? && v.component == (if target.ArrayType? then target.component else target) && |v.elements| == |items|
  {
  }

  // ----- getParameters -----

  /** `convertType` as a value, so that the loops below see it as one step. */
  type Converter = (Json, ClassRef) -> Result<JValue>

  function Conversion(toBean: ToBean): Converter
  {
    (value, target) => ConvertType(value, target, toBean)
  }

  /** `convertType` on a member that may be missing, then `getClass()` on the result: a null on either side is dereferenced. */
  function Stored(source: Option<Json>, target: ClassRef, convert: Converter): (r: Result<Option<JValue>>)
    ensures r.Ok? ==> r.value.Some? && !r.value.value.Null?
  {
    if source.None? then Err(NullPointer())
    else
      var v := convert(source.value, target);
      if v.Err? then Err(v.thrown) else if v.value.Null? then Err(NullPointer()) else Ok(Some(v.value))
  }

  /** One step of the collecting loops: the stored value, None when a parameter without a name is skipped, or the exception. */
  function Slot(params: Json, m: MethodInfo, convert: Converter, i: nat): (r: Result<Option<JValue>>)
    requires i < |m.paramTypes|
    requires params.JArr? ==> i < |params.items|
    ensures r.Ok? && r.value.Some? ==> !r.value.value.Null?
  {
    if params.JArr? then Stored(Some(params.items[i]), m.paramTypes[i], convert)
    else
      var name := GetParamName(m, i);
      if name.None? then Ok(None)
      else Stored(Get(params, name.value), m.paramTypes[i], convert)
  }

  /** What the collecting loop holds after `k` parameters, or the exception that stopped it. */
  function Collected(params: Json, m: MethodInfo, convert: Converter, k: nat): (r: Result<seq<Option<JValue>>>)
    requires k <= |m.paramTypes|
    requires params.JArr? ==> |params.items| == |m.paramTypes|
    ensures r.Ok? ==> |r.value| == k && forall j :: 0 <= j < k && r.value[j].Some? ==> !r.value[j].value.Null?
  {
    if k == 0 then Ok([])
    else
      var init := Collected(params, m, convert, k - 1);
      if init.Err? then init
      else
        var slot := Slot(params, m, convert, k - 1);
        if slot.Err? then Err(slot.thrown) else Ok(init.value + [slot.value])
  }

  lemma {:induction false} CollectedKeepsFailure(params: Json, m: MethodInfo, convert: Converter, k: nat, n: nat)
    requires k <= n <= |m.paramTypes|
    requires params.JArr? ==> |params.items| == |m.paramTypes|
    requires Collected(params, m, convert, k).Err?
    ensures Collected(params, m, convert, n) == Collected(params, m, convert, k)
    decreases n
  {
    if k < n {
      CollectedKeepsFailure(params, m, convert, k, n - 1);
    }
  }

  /**
   * The type check of one parameter: a reference type must be assignable
   * from the argument's class, a primitive type must see its own wrapper
   * (or itself); arrays are compared by component.
   */
  predicate Fits(declared: ClassRef, actual: ClassRef)
  {
    var methodType := if declared.ArrayType? then declared.component else declared;
    var rpcType := if actual.ArrayType? then actual.component else actual;
    if !methodType.PrimitiveType? then IsAssignableFrom(methodType, rpcType)
    else IsAssignableFrom(Boxed(methodType.kind), rpcType) || IsAssignableFrom(methodType, rpcType)
  }

  /** The `rpcParamTypes` array: the class of each stored value, null where none was stored. */
  function ClassesOf(slots: seq<Option<JValue>>): (r: seq<Option<ClassRef>>)
    ensures |r| == |slots|
    ensures forall j :: 0 <= j < |slots| ==> r[j] == (if slots[j].Some? then ClassOf(slots[j].value) else None)
  {
    seq(|slots|, j requires 0 <= j < |slots| => if slots[j].Some? then ClassOf(slots[j].value) else None)
  }

  /** The `rpcParamValues` array: null where no value was stored. */
  function ValuesOf(slots: seq<Option<JValue>>): (r: seq<JValue>)
    ensures |r| == |slots|
    ensures forall j :: 0 <= j < |slots| ==> r[j] == (if slots[j].Some? then slots[j].value else Null)
  {
    seq(|slots|, j requires 0 <= j < |slots| => if slots[j].Some? then slots[j].value else Null)
  }

  /** The alignment loop after `k` parameters: true while every type fits, false at the first misfit, a null class is dereferenced. */
  function AlignedUpTo(types: seq<ClassRef>, classes: seq<Option<ClassRef>>, k: nat): (r: Result<bool>)
    requires k <= |types| == |classes|
    ensures r == Ok(true) ==> forall j :: 0 <= j < k ==> classes[j].Some? && Fits(types[j], classes[j].value)
  {
    if k == 0 then Ok(true)
    else
      var init := AlignedUpTo(types, classes, k - 1);
      if init != Ok(true) then init
      else if classes[k - 1].None? then Err(NullPointer())
      else Ok(Fits(types[k - 1], classes[k - 1].value))
  }

  lemma {:induction false} AlignedKeepsVerdict(types: seq<ClassRef>, classes: seq<Option<ClassRef>>, k: nat, n: nat)
    requires k <= n <= |types| == |classes|
    requires AlignedUpTo(types, classes, k) != Ok(true)
    ensures AlignedUpTo(types, classes, n) == AlignedUpTo(types, classes, k)
    decreases n
  {
    if k < n {
      AlignedKeepsVerdict(types, classes, k, n - 1);
    }
  }

  /** When every class is known, the loop says false exactly when some type does not fit. */
  lemma {:induction false} AlignedIffFits(types: seq<ClassRef>, classes: seq<Option<ClassRef>>, k: nat)
    requires k <= |types| == |classes|
    requires forall j :: 0 <= j < k ==> classes[j].Some?
    ensures AlignedUpTo(types, classes, k) == Ok(forall j :: 0 <= j < k ==> Fits(types[j], classes[j].value))
  {
    if k > 0 {
      AlignedIffFits(types, classes, k - 1);
    }
  }

  /**
   * `getParameters(rpcRequest, method)`: None (Java's null) when the
   * method does not fit the request, the bound values when it does, or
   * the exception reading the request raised.
   */
  function ParametersSpec(req: map<string, Json>, m: MethodInfo, toBean: ToBean): (r: Result<Option<seq<JValue>>>)
    ensures GetParamCount(req).Err? ==> r == Err(GetParamCount(req).thrown)
    ensures GetParamCount(req).Ok? && |m.paramTypes| != GetParamCount(req).value ==> r == Ok(None)
    ensures GetParamCount(req) == Ok(0) && |m.paramTypes| == 0 ==> r == Ok(Some([]))
    ensures r.Ok? && r.value.Some? ==>
      |r.value.value| == |m.paramTypes|
      && forall j :: 0 <= j < |m.paramTypes| ==> !r.value.value[j].Null? && Fits(m.paramTypes[j], ClassOf(r.value.value[j]).value)
  {
    var count := GetParamCount(req);
    if count.Err? then Err(count.thrown)
    else if |m.paramTypes| != count.value then Ok(None)
    else if |m.paramTypes| == 0 then Ok(Some([]))
    else
      var params := req["params"];
      var slots := Collected(params, m, Conversion(toBean), |m.paramTypes|);
      if slots.Err? then Err(slots.thrown)
      else
        var aligned := AlignedUpTo(m.paramTypes, ClassesOf(slots.value), |m.paramTypes|);
        if aligned.Err? then Err(aligned.thrown)
        else if !aligned.value then Ok(None)
        else Ok(Some(ValuesOf(slots.value)))
  }

  /** Every slot the collecting loop holds is the one `Slot` computes for that parameter. */
  lemma {:induction false} CollectedSlots(params: Json, m: MethodInfo, convert: Converter, k: nat)
    requires k <= |m.paramTypes|
    requires params.JArr? ==> |params.items| == |m.paramTypes|
    requires Collected(params, m, convert, k).Ok?
    ensures forall j :: 0 <= j < k ==>
      Slot(params, m, convert, j).Ok? && Collected(params, m, convert, k).value[j] == Slot(params, m, convert, j).value
    decreases k
  {
    if k > 0 {
      CollectedSlots(params, m, convert, k - 1);
    }
  }

  /**
   * Which value `getParameters` binds (lines 284-305): parameter j gets the
   * j-th element of indexed params, or the member named by its
   * `JsonRpcParamName`, converted to its declared type.
   */
  lemma ParametersBound(req: map<string, Json>, m: MethodInfo, toBean: ToBean, j: nat)
    requires ParametersSpec(req, m, toBean).Ok? && ParametersSpec(req, m, toBean).value.Some?
    requires j < |m.paramTypes|
    ensures "params" in req
    ensures var params := req["params"];
      var v := ParametersSpec(req, m, toBean).value.value[j];
      (params.JArr? ==> j < |params.items| && ConvertType(params.items[j], m.paramTypes[j], toBean) == Ok(v))
      && (!params.JArr? ==>
            params.JObj? && GetParamName(m, j).Some? && GetParamName(m, j).value in params.fields
            && ConvertType(params.fields[GetParamName(m, j).value], m.paramTypes[j], toBean) == Ok(v))
  {
    var params := req["params"];
    var slots := Collected(params, m, Conversion(toBean), |m.paramTypes|);
    CollectedSlots(params, m, Conversion(toBean), |m.paramTypes|);
    var classes := ClassesOf(slots.value);
    assert classes[j].Some?;
  }

  /**
   * A primitive parameter is bound only to a value whose class, or whose
   * array component, is that primitive or its wrapper.
   */
  lemma PrimitiveGetsItsWrapper(req: map<string, Json>, m: MethodInfo, toBean: ToBean, j: nat)
    requires ParametersSpec(req, m, toBean).Ok? && ParametersSpec(req, m, toBean).value.Some?
    requires j < |m.paramTypes| && m.paramTypes[j].PrimitiveType?
    ensures var c := ClassOf(ParametersSpec(req, m, toBean).value.value[j]).value;
      var rpcType := if c.ArrayType? then c.component else c;
      rpcType == Boxed(m.paramTypes[j].kind) || rpcType == m.paramTypes[j]
  {
    var v := ParametersSpec(req, m, toBean).value.value[j];
    assert Fits(m.paramTypes[j], ClassOf(v).value);
  }

  /** Once every parameter is stored, a single misfit makes the method not fit (null), never an exception. */
  lemma MisfitGivesNull(req: map<string, Json>, m: MethodInfo, toBean: ToBean, j: nat)
    requires GetParamCount(req) == Ok(|m.paramTypes|) && j < |m.paramTypes|
    requires var params := req["params"];
      var slots := Collected(params, m, Conversion(toBean), |m.paramTypes|);
      slots.Ok? && (forall i :: 0 <= i < |m.paramTypes| ==> slots.value[i].Some?)
      && !Fits(m.paramTypes[j], ClassOf(slots.value[j].value).value)
    ensures ParametersSpec(req, m, toBean) == Ok(None)
  {
    var slots := Collected(req["params"], m, Conversion(toBean), |m.paramTypes|).value;
    AlignedIffFits(m.paramTypes, ClassesOf(slots), |m.paramTypes|);
  }

  lemma CollectedStep(params: Json, m: MethodInfo, convert: Converter, i: nat, slots: seq<Option<JValue>>)
    requires i < |m.paramTypes|
    requires params.JArr? ==> |params.items| == |m.paramTypes|
    requires Collected(params, m, convert, i) == Ok(slots)
    requires Slot(params, m, convert, i).Ok?
    ensures Collected(params, m, convert, i + 1) == Ok(slots + [Slot(params, m, convert, i).value])
  {
  }

  /** The collecting loop of `getParameters`: fills `values` and `types` one parameter at a time. */
  method CollectInto(params: Json, m: MethodInfo, convert: Converter, values: array<JValue>, types: array<Option<ClassRef>>)
    returns (failure: Option<Throwable>)
    requires values.Length == types.Length == |m.paramTypes|
    requires params.JArr? ==> |params.items| == |m.paramTypes|
    requires forall j :: 0 <= j < values.Length ==> values[j] == Null && types[j] == None
    modifies values, types
    ensures failure.Some? ==> Collected(params, m, convert, |m.paramTypes|) == Err(failure.value)
    ensures failure.None? ==> Collected(params, m, convert, |m.paramTypes|).Ok?
    ensures failure.None? ==> forall j :: 0 <= j < values.Length ==>
      values[j] == ValuesOf(Collected(params, m, convert, |m.paramTypes|).value)[j]
      && types[j] == ClassesOf(Collected(params, m, convert, |m.paramTypes|).value)[j]
  {
    var n := values.Length;
    ghost var slots: seq<Option<JValue>> := [];
    for i := 0 to n
      invariant Collected(params, m, convert, i) == Ok(slots) && |slots| == i
      invariant forall j :: 0 <= j < i ==> values[j] == ValuesOf(slots)[j] && types[j] == ClassesOf(slots)[j]
      invariant forall j :: i <= j < n ==> values[j] == Null && types[j] == None
    {
      var slot := Slot(params, m, convert, i);
      if slot.Err? {
        CollectedKeepsFailure(params, m, convert, i + 1, n);
        return Some(slot.thrown);
      }
      CollectedStep(params, m, convert, i, slots);
      if slot.value.Some? {
        values[i] := slot.value.value;
        types[i] := ClassOf(slot.value.value);
      }
      slots := slots + [slot.value];
    }
    return None;
  }

  /** The alignment loop of `getParameters`: false at the first parameter whose type does not fit. */
  method TypesAlign(methodParamTypes: seq<ClassRef>, rpcParamTypes: array<Option<ClassRef>>) returns (r: Result<bool>)
    requires rpcParamTypes.Length == |methodParamTypes|
    ensures r == AlignedUpTo(methodParamTypes, rpcParamTypes[..], |methodParamTypes|)
  {
    var n := rpcParamTypes.Length;
    for i := 0 to n
      invariant AlignedUpTo(methodParamTypes, rpcParamTypes[..], i) == Ok(true)
    {
      if rpcParamTypes[i].None? {
        AlignedKeepsVerdict(methodParamTypes, rpcParamTypes[..], i + 1, n);
        return Err(NullPointer());
      }
      var methodType := if methodParamTypes[i].ArrayType? then methodParamTypes[i].component else methodParamTypes[i];
      var rpcType := if rpcParamTypes[i].value.ArrayType? then rpcParamTypes[i].value.component else rpcParamTypes[i].value;
      if !methodType.PrimitiveType? && !IsAssignableFrom(methodType, rpcType) {
        AlignedKeepsVerdict(methodParamTypes, rpcParamTypes[..], i + 1, n);
        return Ok(false);
      } else if methodType.PrimitiveType? && !(IsAssignableFrom(Boxed(methodType.kind), rpcType) || IsAssignableFrom(methodType, rpcType)) {
        AlignedKeepsVerdict(methodParamTypes, rpcParamTypes[..], i + 1, n);
        return Ok(false);
      }
    }
    return Ok(true);
  }

  /** `getParameters` over the `rpcParamValues` and `rpcParamTypes` arrays. */
  method GetParameters(req: map<string, Json>, m: MethodInfo, toBean: ToBean) returns (r: Result<Option<seq<JValue>>>)
    ensures r == ParametersSpec(req, m, toBean)
  {
    var count := GetParamCount(req);
    if count.Err? {
      return Err(count.thrown);
    }
    var methodParamTypes := m.paramTypes;
    if |methodParamTypes| != count.value {
      return Ok(None);
    } else if |methodParamTypes| == 0 {
      return Ok(Some([]));
    }
    var rpcParamTypes := new Option<ClassRef>[count.value](_ => None);
    var rpcParamValues := new JValue[count.value](_ => Null);
    var failure := CollectInto(req["params"], m, Conversion(toBean), rpcParamValues, rpcParamTypes);
    if failure.Some? {
      return Err(failure.value);
    }
    ghost var slots := Collected(req["params"], m, Conversion(toBean), |m.paramTypes|).value;
    assert rpcParamValues[..] == ValuesOf(slots);
    assert rpcParamTypes[..] == ClassesOf(slots);
    var aligned := TypesAlign(methodParamTypes, rpcParamTypes);
    if aligned.Err? {
      return Err(aligned.thrown);
    } else if !aligned.value {
      return Ok(None);
    }
    return Ok(Some(rpcParamValues[..]));
  }
}
