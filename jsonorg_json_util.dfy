/**
 * `JSONUtil` of the org.json binding: a registry of type converters, the
 * reflective mapping of Java values to org.json values (`toJSON`, limited
 * to MAX_OBJECT_DEPTH_LEVEL nested containers) and back (`fromJSON`), and
 * `toJSONString`.
 *
 * A bean value carries one value per property, in the order the class's
 * getter/setter pairs are discovered; any other class that no converter
 * supports exposes no bean property.
 */
module JsonOrgUtil {
  import opened Common
  import opened Failures
  import opened JavaModel
  import opened TypeConverters

  const MaxObjectDepthLevel: nat := 20

  function DepthExceeded(): Throwable
  {
    Throwable("java.lang.Exception", {"java.lang.Throwable"}, Some("MAX_OBJECT_DEPTH_LEVEL met"), Plain)
  }

  /** The registry after the static initialiser, which registers primitives, URLs, dates and enums, each at the front. */
  const DefaultConverters: seq<TypeConverter> :=
    [EnumConverter, DateConverter(DefaultDatePattern), UrlConverter, PrimitiveConverter]

  /**
   * What `fromJSON` decides by reflection outside the model: filling a
   * collection from a JSON array (its element type comes from generic
   * type arguments) and instantiating a class that is no bean of the
   * model from a JSON object.
   */
  datatype Reflection = Reflection(
    toCollection: (JValue, ClassRef) -> Result<JValue>,
    instantiate: (JValue, ClassRef) -> Result<JValue>)

  /** The registered converters, most recently registered first, with the oracles. */
  datatype Context = Context(converters: seq<TypeConverter>, platform: Platform, reflection: Reflection)

  // ----- the converter registry -----

  function FirstSupportingFrom(cs: seq<TypeConverter>, clazz: ClassRef, i: nat): (r: Option<nat>)
    requires i <= |cs|
    ensures r.Some? ==> i <= r.value < |cs| && Supports(cs[r.value], clazz)
                        && forall j :: i <= j < r.value ==> !Supports(cs[j], clazz)
    ensures r.None? ==> forall j :: i <= j < |cs| ==> !Supports(cs[j], clazz)
    decreases |cs| - i
  {
    if i == |cs| then None
    else if Supports(cs[i], clazz) then Some(i)
    else FirstSupportingFrom(cs, clazz, i + 1)
  }

  /** The position of the converter used for a class: the first, in list order, that supports it. */
  function FirstSupporting(cs: seq<TypeConverter>, clazz: ClassRef): (r: Option<nat>)
    ensures r.Some? ==> r.value < |cs| && Supports(cs[r.value], clazz)
                        && forall j :: 0 <= j < r.value ==> !Supports(cs[j], clazz)
    ensures r.None? <==> !Convertible(cs, clazz)
  {
    FirstSupportingFrom(cs, clazz, 0)
  }

  /** `canConvert(clazz)`: some registered converter supports the class. */
  predicate Convertible(cs: seq<TypeConverter>, clazz: ClassRef)
  {
    exists i :: 0 <= i < |cs| && Supports(cs[i], clazz)
  }

  /** `Class.toString()`; the model does not tell interfaces from classes. */
  function ClassText(c: ClassRef): string
  {
    if c.PrimitiveType? then JavaName(c) else "class " + JavaName(c)
  }

  function UnknownType(c: ClassRef): Throwable
  {
    IllegalArgument(Some("Unknown object type: " + ClassText(c)))
  }

  /** `convertToJSON`: null and `JSONObject.NULL` give null; otherwise the first supporting converter's `toJSON`. */
  function ConvertToJson(ctx: Context, v: JValue): (r: Result<JValue>)
    ensures v.Null? || v.JSONNullVal? ==> r == Ok(Null)
    ensures !v.Null? && !v.JSONNullVal? && !Convertible(ctx.converters, ClassOf(v).value) ==>
      r == Err(UnknownType(ClassOf(v).value))
  {
    if v.Null? || v.JSONNullVal? then Ok(Null)
    else
      var clazz := ClassOf(v).value;
      match FirstSupporting(ctx.converters, clazz)
      case Some(i) => ConverterToJson(ctx.platform, ctx.converters[i], v, clazz)
      case None => Err(UnknownType(clazz))
  }

  /** `convertFromJSON`: null gives `JSONObject.NULL`; otherwise the first supporting converter's `fromJSON`. */
  function ConvertFromJson(ctx: Context, v: JValue, clazz: ClassRef): (r: Result<JValue>)
    ensures v.Null? ==> r == Ok(JSONNullVal)
    ensures !v.Null? && !Convertible(ctx.converters, clazz) ==> r == Err(UnknownType(clazz))
  {
    if v.Null? then Ok(JSONNullVal)
    else
      match FirstSupporting(ctx.converters, clazz)
      case Some(i) => ConverterFromJson(ctx.platform, ctx.converters[i], v, clazz)
      case None => Err(UnknownType(clazz))
  }

  /** With the `i`-th converter the first that supports the class, `convertToJSON` is that converter's. */
  lemma ConvertToAt(ctx: Context, v: JValue, clazz: ClassRef, i: nat)
    requires i < |ctx.converters| && Supports(ctx.converters[i], clazz)
    requires forall j :: 0 <= j < i ==> !Supports(ctx.converters[j], clazz)
    requires !v.Null? && !v.JSONNullVal? && ClassOf(v) == Some(clazz)
    ensures ConvertToJson(ctx, v) == ConverterToJson(ctx.platform, ctx.converters[i], v, clazz)
  {
    FirstSupportingAt(ctx.converters, clazz, i);
  }

  /** The same for `convertFromJSON`. */
  lemma ConvertFromAt(ctx: Context, v: JValue, clazz: ClassRef, i: nat)
    requires i < |ctx.converters| && Supports(ctx.converters[i], clazz)
    requires forall j :: 0 <= j < i ==> !Supports(ctx.converters[j], clazz)
    requires !v.Null?
    ensures ConvertFromJson(ctx, v, clazz) == ConverterFromJson(ctx.platform, ctx.converters[i], v, clazz)
  {
    FirstSupportingAt(ctx.converters, clazz, i);
  }

  /** The search stops at the first converter that supports the class. */
  lemma FirstSupportingAt(cs: seq<TypeConverter>, clazz: ClassRef, i: nat)
    requires i < |cs| && Supports(cs[i], clazz)
    requires forall j :: 0 <= j < i ==> !Supports(cs[j], clazz)
    ensures FirstSupporting(cs, clazz) == Some(i)
  {
  }

  /** Registering `c` puts it first in the search and shifts the others by one place. */
  lemma FirstSupportingAfterRegister(cs: seq<TypeConverter>, c: TypeConverter, clazz: ClassRef)
    ensures Supports(c, clazz) ==> FirstSupporting([c] + cs, clazz) == Some(0)
    ensures !Supports(c, clazz) && FirstSupporting(cs, clazz).Some? ==>
      FirstSupporting([c] + cs, clazz) == Some(FirstSupporting(cs, clazz).value + 1)
    ensures !Supports(c, clazz) && FirstSupporting(cs, clazz).None? ==>
      FirstSupporting([c] + cs, clazz).None?
  {
    var cs' := [c] + cs;
    if Supports(c, clazz) {
      FirstSupportingAt(cs', clazz, 0);
    } else if FirstSupporting(cs, clazz).Some? {
      var i := FirstSupporting(cs, clazz).value;
      assert cs'[i + 1] == cs[i];
      assert forall j :: 1 <= j < i + 1 ==> cs'[j] == cs[j - 1];
      FirstSupportingAt(cs', clazz, i + 1);
    } else {
      assert forall j :: 1 <= j < |cs'| ==> cs'[j] == cs[j - 1];
    }
  }

  /**
   * The most recently registered converter wins: once `c` is put at the
   * front, it converts every value of a class it supports, and a
   * converter that does not support the class changes nothing.
   */
  lemma RegisteredFirstWins(ctx: Context, c: TypeConverter, v: JValue)
    requires !v.Null? && !v.JSONNullVal?
    ensures Supports(c, ClassOf(v).value) ==>
      ConvertToJson(ctx.(converters := [c] + ctx.converters), v)
        == ConverterToJson(ctx.platform, c, v, ClassOf(v).value)
    ensures !Supports(c, ClassOf(v).value) ==>
      ConvertToJson(ctx.(converters := [c] + ctx.converters), v) == ConvertToJson(ctx, v)
  {
    FirstSupportingAfterRegister(ctx.converters, c, ClassOf(v).value);
  }

  /** The same for `convertFromJSON`, which searches by the target class. */
  lemma RegisteredFirstDecodes(ctx: Context, c: TypeConverter, v: JValue, clazz: ClassRef)
    requires !v.Null?
    ensures Supports(c, clazz) ==>
      ConvertFromJson(ctx.(converters := [c] + ctx.converters), v, clazz)
        == ConverterFromJson(ctx.platform, c, v, clazz)
    ensures !Supports(c, clazz) ==>
      ConvertFromJson(ctx.(converters := [c] + ctx.converters), v, clazz) == ConvertFromJson(ctx, v, clazz)
  {
    FirstSupportingAfterRegister(ctx.converters, c, clazz);
  }

  // ----- toJSON -----

  /** The number of bean properties a value exposes to `toJSONObject`. */
  function PropertyCount(v: JValue): nat
  {
    if v.BeanVal? && v.btype.BeanType? then
      if |v.btype.properties| <= |v.values| then |v.btype.properties| else |v.values|
    else 0
  }

  function PropertyName(v: JValue, i: nat): string
    requires i < PropertyCount(v)
  {
    v.btype.properties[i].name
  }

  /** org.json's `JSONObject.put(key, value)`: a null value removes the key. */
  function Put(m: map<string, JValue>, key: string, x: JValue): (r: map<string, JValue>)
    ensures x.Null? ==> key !in r
    ensures !x.Null? ==> key in r && r[key] == x
    ensures forall k :: k != key ==> (k in r <==> k in m) && (k in m ==> r[k] == m[k])
  {
    if x.Null? then m - {key} else m[key := x]
  }

  /**
   * `toJSON(object, level)`: null stays null; an array or a collection
   * becomes a JSON array, a value some converter supports is converted,
   * and anything else becomes a JSON object of its bean properties.  A
   * primitive array cannot be cast to `Object[]`.
   */
  function ToJson(ctx: Context, v: JValue, level: nat): (r: Result<JValue>)
    ensures v.Null? ==> r == Ok(Null)
    decreases v, 2
  {
    if v.Null? then Ok(Null)
    else if v.ArrayVal? then
      if v.component.PrimitiveType? then Err(ClassCast()) else ToJsonArray(ctx, v, level)
    else if v.CollectionVal? then ToJsonArray(ctx, v, level)
    else if Convertible(ctx.converters, ClassOf(v).value) then ConvertToJson(ctx, v)
    else ToJsonObject(ctx, v, level)
  }

  /**
   * `toJSONArray(objects, level)`: past the depth limit an exception;
   * otherwise a JSON array with one entry per element, in order, each
   * converted one level deeper.
   */
  function ToJsonArray(ctx: Context, v: JValue, level: nat): (r: Result<JValue>)
    requires v.ArrayVal? || v.CollectionVal?
    ensures level > MaxObjectDepthLevel ==> r == Err(DepthExceeded())
    ensures r.Ok? ==> r.value.OrgArrayVal? && |r.value.list| == |v.elements|
    decreases v, 1
  {
    if level > MaxObjectDepthLevel then Err(DepthExceeded())
    else
      match ToJsonElements(ctx, v, |v.elements|, level + 1)
      case Ok(items) => Ok(OrgArrayVal(items))
      case Err(e) => Err(e)
  }

  /** The first `k` elements converted at `level`, or the first failure among them. */
  function ToJsonElements(ctx: Context, v: JValue, k: nat, level: nat): (r: Result<seq<JValue>>)
    requires v.ArrayVal? || v.CollectionVal?
    requires k <= |v.elements|
    ensures r.Ok? ==> |r.value| == k
    decreases v, 0, k
  {
    if k == 0 then Ok([])
    else
      match ToJsonElements(ctx, v, k - 1, level)
      case Err(e) => Err(e)
      case Ok(prefix) =>
        match ToJson(ctx, v.elements[k - 1], level)
        case Err(e) => Err(e)
        case Ok(x) => Ok(prefix + [x])
  }

  /**
   * `toJSONObject(object, level)`: past the depth limit an exception;
   * otherwise a JSON object holding each bean property converted one
   * level deeper, where a null value leaves the key out.
   */
  function ToJsonObject(ctx: Context, v: JValue, level: nat): (r: Result<JValue>)
    requires !v.Null?
    ensures level > MaxObjectDepthLevel ==> r == Err(DepthExceeded())
    ensures r.Ok? ==> r.value.OrgObjectVal?
    decreases v, 1
  {
    if level > MaxObjectDepthLevel then Err(DepthExceeded())
    else
      match PutProperties(ctx, v, PropertyCount(v), level + 1)
      case Ok(m) => Ok(OrgObjectVal(m))
      case Err(e) => Err(e)
  }

  /** The JSON object after putting the first `k` bean properties, or the first failure among them. */
  function PutProperties(ctx: Context, v: JValue, k: nat, level: nat): (r: Result<map<string, JValue>>)
    requires k <= PropertyCount(v)
    decreases v, 0, k
  {
    if k == 0 then Ok(map[])
    else
      match PutProperties(ctx, v, k - 1, level)
      case Err(e) => Err(e)
      case Ok(m) =>
        match ToJson(ctx, v.values[k - 1], level)
        case Err(e) => Err(e)
        case Ok(x) => Ok(Put(m, PropertyName(v, k - 1), x))
  }

  lemma {:induction false} ElementsShape(ctx: Context, v: JValue, k: nat, level: nat)
    requires v.ArrayVal? || v.CollectionVal?
    requires k <= |v.elements| && ToJsonElements(ctx, v, k, level).Ok?
    ensures forall i :: 0 <= i < k ==> ToJson(ctx, v.elements[i], level) == Ok(ToJsonElements(ctx, v, k, level).value[i])
    decreases k
  {
    if k > 0 {
      ElementsShape(ctx, v, k - 1, level);
    }
  }

  /** An array or a collection becomes a JSON array with as many entries, in the same order. */
  lemma ArrayShape(ctx: Context, v: JValue, level: nat)
    requires v.ArrayVal? || v.CollectionVal?
    requires ToJson(ctx, v, level).Ok?
    ensures ToJson(ctx, v, level).value.OrgArrayVal?
    ensures |ToJson(ctx, v, level).value.list| == |v.elements|
    ensures forall i :: 0 <= i < |v.elements| ==>
      ToJson(ctx, v.elements[i], level + 1) == Ok(ToJson(ctx, v, level).value.list[i])
  {
    ElementsShape(ctx, v, |v.elements|, level + 1);
  }

  predicate DistinctNames(v: JValue)
  {
    forall i, j :: 0 <= i < j < PropertyCount(v) ==> PropertyName(v, i) != PropertyName(v, j)
  }

  /** The JSON object holds `x` under `key` exactly as `put(key, x)` leaves it: absent for null, present otherwise. */
  predicate Shows(m: map<string, JValue>, key: string, x: JValue)
  {
    (key in m <==> !x.Null?) && (key in m ==> m[key] == x)
  }

  lemma {:induction false} PropertiesShape(ctx: Context, v: JValue, k: nat, level: nat)
    requires k <= PropertyCount(v) && DistinctNames(v)
    requires PutProperties(ctx, v, k, level).Ok?
    ensures forall i :: 0 <= i < k ==>
      ToJson(ctx, v.values[i], level).Ok?
      && Shows(PutProperties(ctx, v, k, level).value, PropertyName(v, i), ToJson(ctx, v.values[i], level).value)
    decreases k
  {
    if k > 0 {
      PropertiesShape(ctx, v, k - 1, level);
      var name := PropertyName(v, k - 1);
      assert forall i :: 0 <= i < k - 1 ==> PropertyName(v, i) != name;
      assert PutProperties(ctx, v, k, level).value
        == Put(PutProperties(ctx, v, k - 1, level).value, name, ToJson(ctx, v.values[k - 1], level).value);
    }
  }

  /** Every key of the JSON object is the name of one of the first k properties. */
  lemma {:induction false} PropertiesKeys(ctx: Context, v: JValue, k: nat, level: nat)
    requires k <= PropertyCount(v)
    requires PutProperties(ctx, v, k, level).Ok?
    ensures forall key :: key in PutProperties(ctx, v, k, level).value ==> exists i :: 0 <= i < k && PropertyName(v, i) == key
    decreases k
  {
    if k > 0 {
      PropertiesKeys(ctx, v, k - 1, level);
    }
  }

  /**
   * A bean that no converter supports becomes a JSON object holding
   * exactly its properties whose converted value is not null, and never
   * a null value.
   */
  lemma ObjectShape(ctx: Context, v: JValue, level: nat)
    requires v.BeanVal? && !Convertible(ctx.converters, v.btype) && DistinctNames(v)
    requires ToJson(ctx, v, level).Ok?
    ensures ToJson(ctx, v, level).value.OrgObjectVal?
    ensures forall i :: 0 <= i < PropertyCount(v) ==> ToJson(ctx, v.values[i], level + 1).Ok?
    ensures forall i :: 0 <= i < PropertyCount(v) ==>
      (PropertyName(v, i) in ToJson(ctx, v, level).value.fields <==> !ToJson(ctx, v.values[i], level + 1).value.Null?)
    ensures forall i :: 0 <= i < PropertyCount(v) && PropertyName(v, i) in ToJson(ctx, v, level).value.fields ==>
      ToJson(ctx, v, level).value.fields[PropertyName(v, i)] == ToJson(ctx, v.values[i], level + 1).value
    ensures forall key :: key in ToJson(ctx, v, level).value.fields ==> !ToJson(ctx, v, level).value.fields[key].Null?
  {
    PropertiesShape(ctx, v, PropertyCount(v), level + 1);
    PropertiesKeys(ctx, v, PropertyCount(v), level + 1);
  }

  // ----- nesting depth -----

  function Max(a: nat, b: nat): nat
  {
    if a < b then b else a
  }

  /** The number of nested containers `toJSON` opens for a value: arrays, collections and beans. */
  function Depth(cs: seq<TypeConverter>, v: JValue): nat
    decreases v, 2
  {
    if v.ArrayVal? || v.CollectionVal? then 1 + ElementsDepth(cs, v, |v.elements|)
    else if v.Null? || Convertible(cs, ClassOf(v).value) then 0
    else 1 + PropertiesDepth(cs, v, PropertyCount(v))
  }

  function ElementsDepth(cs: seq<TypeConverter>, v: JValue, k: nat): nat
    requires v.ArrayVal? || v.CollectionVal?
    requires k <= |v.elements|
    decreases v, 1, k
  {
    if k == 0 then 0 else Max(ElementsDepth(cs, v, k - 1), Depth(cs, v.elements[k - 1]))
  }

  function PropertiesDepth(cs: seq<TypeConverter>, v: JValue, k: nat): nat
    requires k <= PropertyCount(v)
    decreases v, 1, k
  {
    if k == 0 then 0 else Max(PropertiesDepth(cs, v, k - 1), Depth(cs, v.values[k - 1]))
  }

  /** Every converter `toJSON` calls on the value succeeds and no primitive array occurs in it. */
  predicate Clean(ctx: Context, v: JValue)
    decreases v, 2
  {
    if v.ArrayVal? then !v.component.PrimitiveType? && ElementsClean(ctx, v, |v.elements|)
    else if v.CollectionVal? then ElementsClean(ctx, v, |v.elements|)
    else if v.Null? then true
    else if Convertible(ctx.converters, ClassOf(v).value) then ConvertToJson(ctx, v).Ok?
    else PropertiesClean(ctx, v, PropertyCount(v))
  }

  predicate ElementsClean(ctx: Context, v: JValue, k: nat)
    requires v.ArrayVal? || v.CollectionVal?
    requires k <= |v.elements|
    decreases v, 1, k
  {
    k == 0 || (ElementsClean(ctx, v, k - 1) && Clean(ctx, v.elements[k - 1]))
  }

  predicate PropertiesClean(ctx: Context, v: JValue, k: nat)
    requires k <= PropertyCount(v)
    decreases v, 1, k
  {
    k == 0 || (PropertiesClean(ctx, v, k - 1) && Clean(ctx, v.values[k - 1]))
  }

  /** A value nesting containers deeper than the limit allows cannot be converted. */
  lemma {:induction false} TooDeepFails(ctx: Context, v: JValue, level: nat)
    requires Depth(ctx.converters, v) > 0 && level + Depth(ctx.converters, v) > MaxObjectDepthLevel + 1
    ensures ToJson(ctx, v, level).Err?
    decreases v, 2
  {
    if v.ArrayVal? || v.CollectionVal? {
      if !(v.ArrayVal? && v.component.PrimitiveType?) && level <= MaxObjectDepthLevel {
        ElementsTooDeepFail(ctx, v, |v.elements|, level + 1);
      }
    } else if level <= MaxObjectDepthLevel {
      PropertiesTooDeepFail(ctx, v, PropertyCount(v), level + 1);
    }
  }

  lemma {:induction false} ElementsTooDeepFail(ctx: Context, v: JValue, k: nat, level: nat)
    requires v.ArrayVal? || v.CollectionVal?
    requires k <= |v.elements|
    requires ElementsDepth(ctx.converters, v, k) > 0
    requires level + ElementsDepth(ctx.converters, v, k) > MaxObjectDepthLevel + 1
    ensures ToJsonElements(ctx, v, k, level).Err?
    decreases v, 1, k
  {
    var cs := ctx.converters;
    if ElementsDepth(cs, v, k - 1) > 0 && level + ElementsDepth(cs, v, k - 1) > MaxObjectDepthLevel + 1 {
      ElementsTooDeepFail(ctx, v, k - 1, level);
    } else if ToJsonElements(ctx, v, k - 1, level).Ok? {
      TooDeepFails(ctx, v.elements[k - 1], level);
    }
  }

  lemma {:induction false} PropertiesTooDeepFail(ctx: Context, v: JValue, k: nat, level: nat)
    requires k <= PropertyCount(v)
    requires PropertiesDepth(ctx.converters, v, k) > 0
    requires level + PropertiesDepth(ctx.converters, v, k) > MaxObjectDepthLevel + 1
    ensures PutProperties(ctx, v, k, level).Err?
    decreases v, 1, k
  {
    var cs := ctx.converters;
    if PropertiesDepth(cs, v, k - 1) > 0 && level + PropertiesDepth(cs, v, k - 1) > MaxObjectDepthLevel + 1 {
      PropertiesTooDeepFail(ctx, v, k - 1, level);
    } else if PutProperties(ctx, v, k - 1, level).Ok? {
      TooDeepFails(ctx, v.values[k - 1], level);
    }
  }

  /** A clean value within the depth limit converts. */
  lemma {:induction false} ShallowConverts(ctx: Context, v: JValue, level: nat)
    requires Clean(ctx, v) && level + Depth(ctx.converters, v) <= MaxObjectDepthLevel + 1
    ensures ToJson(ctx, v, level).Ok?
    decreases v, 2
  {
    if v.ArrayVal? || v.CollectionVal? {
      ElementsConvert(ctx, v, |v.elements|, level + 1);
    } else if !v.Null? && !Convertible(ctx.converters, ClassOf(v).value) {
      PropertiesConvert(ctx, v, PropertyCount(v), level + 1);
    }
  }

  lemma {:induction false} ElementsConvert(ctx: Context, v: JValue, k: nat, level: nat)
    requires v.ArrayVal? || v.CollectionVal?
    requires k <= |v.elements|
    requires ElementsClean(ctx, v, k) && level + ElementsDepth(ctx.converters, v, k) <= MaxObjectDepthLevel + 1
    ensures ToJsonElements(ctx, v, k, level).Ok?
    decreases v, 1, k
  {
    if k > 0 {
      ElementsConvert(ctx, v, k - 1, level);
      ShallowConverts(ctx, v.elements[k - 1], level);
    }
  }

  lemma {:induction false} PropertiesConvert(ctx: Context, v: JValue, k: nat, level: nat)
    requires k <= PropertyCount(v)
    requires PropertiesClean(ctx, v, k) && level + PropertiesDepth(ctx.converters, v, k) <= MaxObjectDepthLevel + 1
    ensures PutProperties(ctx, v, k, level).Ok?
    decreases v, 1, k
  {
    if k > 0 {
      PropertiesConvert(ctx, v, k - 1, level);
      ShallowConverts(ctx, v.values[k - 1], level);
    }
  }

  /**
   * The depth limit: `toJSON(object)` accepts at most
   * MAX_OBJECT_DEPTH_LEVEL + 1 nested containers; deeper values always
   * fail, and a clean value fails exactly when it is deeper.
   */
  lemma DepthLimit(ctx: Context, v: JValue)
    ensures Depth(ctx.converters, v) > MaxObjectDepthLevel + 1 ==> ToJson(ctx, v, 0).Err?
    ensures Clean(ctx, v) ==> (ToJson(ctx, v, 0).Ok? <==> Depth(ctx.converters, v) <= MaxObjectDepthLevel + 1)
  {
    if Depth(ctx.converters, v) > MaxObjectDepthLevel + 1 {
      TooDeepFails(ctx, v, 0);
    } else if Clean(ctx, v) {
      ShallowConverts(ctx, v, 0);
    }
  }

  // ----- fromJSON -----

  /**
   * `fromJSON(object, type)`: null and `JSONObject.NULL` give null; a JSON
   * array fills an array of the target's component type (or a
   * collection); a class some converter supports is converted; anything
   * else must be a JSON object and fills a bean.
   */
  function FromJson(ctx: Context, v: JValue, clazz: ClassRef): (r: Result<JValue>)
    ensures v.Null? || v.JSONNullVal? ==> r == Ok(Null)
    decreases v, 2
  {
    if v.Null? || v.JSONNullVal? then Ok(Null)
    else if v.OrgArrayVal? then
      if clazz.ArrayType? then FromJsonArray(ctx, v, clazz.component)
      else ctx.reflection.toCollection(v, clazz)
    else if Convertible(ctx.converters, clazz) then ConvertFromJson(ctx, v, clazz)
    else if !v.OrgObjectVal? then Err(ClassCast())
    else if clazz.BeanType? then FromJsonObject(ctx, v, clazz)
    else ctx.reflection.instantiate(v, clazz)
  }

  /**
   * `fromJSONArrayToArray(array, component)`: an array of the component
   * type with one converted entry per element; a primitive component
   * cannot be cast to `Object[]`.
   */
  function FromJsonArray(ctx: Context, v: JValue, component: ClassRef): (r: Result<JValue>)
    requires v.OrgArrayVal?
    ensures component.PrimitiveType? ==> r == Err(ClassCast())
    ensures r.Ok? ==> r.value.ArrayVal? && r.value.component == component && |r.value.elements| == |v.list|
    decreases v, 1
  {
    if component.PrimitiveType? then Err(ClassCast())
    else
      match FromJsonElements(ctx, v, component, |v.list|)
      case Ok(xs) => Ok(ArrayVal(component, xs))
      case Err(e) => Err(e)
  }

  /**
   * The first `k` entries: `array.get(i)` refuses a stored null, and the
   * array store refuses a value that is no instance of the component.
   */
  function FromJsonElements(ctx: Context, v: JValue, component: ClassRef, k: nat): (r: Result<seq<JValue>>)
    requires v.OrgArrayVal?
    requires k <= |v.list|
    ensures r.Ok? ==> |r.value| == k
    decreases v, 0, k
  {
    if k == 0 then Ok([])
    else
      match FromJsonElements(ctx, v, component, k - 1)
      case Err(e) => Err(e)
      case Ok(prefix) =>
        if v.list[k - 1].Null? then Err(JSONException())
        else
          match FromJson(ctx, v.list[k - 1], component)
          case Err(e) => Err(e)
          case Ok(x) => if Storable(component, x) then Ok(prefix + [x]) else Err(ArrayStore())
  }

  /**
   * `fromJSONObject(object, type)`: a new bean whose every property is set
   * from the member of the same name, which must be present.
   */
  function FromJsonObject(ctx: Context, v: JValue, t: ClassRef): (r: Result<JValue>)
    requires v.OrgObjectVal? && t.BeanType?
    ensures r.Ok? ==> r.value.BeanVal? && r.value.btype == t && |r.value.values| == |t.properties|
    decreases v, 1
  {
    match SetProperties(ctx, v, t, |t.properties|)
    case Ok(xs) => Ok(BeanVal(t, xs))
    case Err(e) => Err(e)
  }

  function SetProperties(ctx: Context, v: JValue, t: ClassRef, k: nat): (r: Result<seq<JValue>>)
    requires v.OrgObjectVal? && t.BeanType?
    requires k <= |t.properties|
    ensures r.Ok? ==> |r.value| == k
    decreases v, 0, k
  {
    if k == 0 then Ok([])
    else
      match SetProperties(ctx, v, t, k - 1)
      case Err(e) => Err(e)
      case Ok(prefix) =>
        var p := t.properties[k - 1];
        if p.name !in v.fields then Err(JSONException())
        else
          match FromJson(ctx, v.fields[p.name], p.ptype)
          case Err(e) => Err(e)
          case Ok(x) =>
            if Storable(p.ptype, x) then Ok(prefix + [StoredElement(p.ptype, x)])
            else Err(IllegalArgument(Some("argument type mismatch")))
  }

  // ----- round trip -----

  /** A non-null value the primitive converter handles both ways. */
  predicate PrimitiveValue(v: JValue)
  {
    v.StrVal? || v.BoolVal? || (v.IntegralVal? && v.kind in {PByte, PShort, PInt, PLong})
    || v.BigIntegerVal? || v.BigDecimalVal?
  }

  /**
   * A value of exactly class `c`: a string, boolean or number, a constant
   * of enum `c`, or an array of component `c.component` whose elements are
   * such values (not null) again.
   */
  predicate Typed(v: JValue, c: ClassRef)
    decreases v
  {
    (PrimitiveValue(v) && ClassOf(v) == Some(c))
    || (v.EnumVal? && c == v.etype && c.EnumType? && v.name in c.constants)
    || (v.ArrayVal? && c == ArrayType(v.component) && !v.component.PrimitiveType?
        && forall i :: 0 <= i < |v.elements| ==> Typed(v.elements[i], v.component))
  }

  lemma TypedClass(v: JValue, c: ClassRef)
    requires Typed(v, c)
    ensures ClassOf(v) == Some(c)
  {
  }

  lemma {:induction false} ElementsDepthBound(cs: seq<TypeConverter>, v: JValue, k: nat, i: nat)
    requires v.ArrayVal? || v.CollectionVal?
    requires i < k <= |v.elements|
    ensures Depth(cs, v.elements[i]) <= ElementsDepth(cs, v, k)
    decreases k
  {
    if i < k - 1 {
      ElementsDepthBound(cs, v, k - 1, i);
    }
  }

  /**
   * With the built-in converters, `fromJSON(toJSON(v), c)` gives back a
   * value of class `c` within the depth limit: strings, booleans, numbers
   * and enum constants, and arrays of them nested at most
   * MAX_OBJECT_DEPTH_LEVEL + 1 deep.
   */
  lemma {:induction false} RoundTrip(ctx: Context, v: JValue, c: ClassRef, level: nat)
    requires ctx.converters == DefaultConverters
    requires Typed(v, c) && level + Depth(ctx.converters, v) <= MaxObjectDepthLevel + 1
    ensures ToJson(ctx, v, level).Ok? && !ToJson(ctx, v, level).value.Null?
    ensures FromJson(ctx, ToJson(ctx, v, level).value, c) == Ok(v)
    decreases v, 1
  {
    if v.ArrayVal? {
      ArrayRoundTrip(ctx, v, c, level);
    } else if v.EnumVal? {
      EnumConstantRoundTrip(ctx, v, c, level);
    } else {
      PrimitiveRoundTrip(ctx, v, c, level);
    }
  }

  lemma EnumConstantRoundTrip(ctx: Context, v: JValue, c: ClassRef, level: nat)
    requires ctx.converters == DefaultConverters
    requires v.EnumVal? && Typed(v, c)
    ensures ToJson(ctx, v, level) == Ok(StrVal(v.name))
    ensures FromJson(ctx, StrVal(v.name), c) == Ok(v)
  {
    EnumConstantToJson(ctx, v, c, level);
    EnumNameFromJson(ctx, v, c);
  }

  lemma EnumConstantToJson(ctx: Context, v: JValue, c: ClassRef, level: nat)
    requires ctx.converters == DefaultConverters
    requires v.EnumVal? && c == v.etype && c.EnumType?
    ensures ToJson(ctx, v, level) == Ok(StrVal(v.name))
  {
    assert Supports(ctx.converters[0], c);
    ConvertToAt(ctx, v, c, 0);
    assert ToJson(ctx, v, level) == ConvertToJson(ctx, v);
  }

  lemma EnumNameFromJson(ctx: Context, v: JValue, c: ClassRef)
    requires ctx.converters == DefaultConverters
    requires v.EnumVal? && c == v.etype && c.EnumType? && v.name in c.constants
    ensures FromJson(ctx, StrVal(v.name), c) == Ok(v)
  {
    assert Supports(ctx.converters[0], c);
    ConvertFromAt(ctx, StrVal(v.name), c, 0);
    assert FromJson(ctx, StrVal(v.name), c) == ConvertFromJson(ctx, StrVal(v.name), c);
  }

  lemma PrimitiveRoundTrip(ctx: Context, v: JValue, c: ClassRef, level: nat)
    requires ctx.converters == DefaultConverters
    requires !v.ArrayVal? && !v.EnumVal? && Typed(v, c)
    ensures ToJson(ctx, v, level) == Ok(v) && !v.Null?
    ensures FromJson(ctx, v, c) == Ok(v)
  {
    PrimitiveConverterFirst(ctx.converters, v, c);
    PrimitiveToJson(ctx, v, c, level);
    PrimitiveFromJson(ctx, v, c);
  }

  lemma PrimitiveToJson(ctx: Context, v: JValue, c: ClassRef, level: nat)
    requires ctx.converters == DefaultConverters
    requires !v.ArrayVal? && !v.EnumVal? && Typed(v, c)
    requires ClassOf(v) == Some(c) && Supports(ctx.converters[3], c)
    requires forall j :: 0 <= j < 3 ==> !Supports(ctx.converters[j], c)
    ensures ToJson(ctx, v, level) == Ok(v)
  {
    ConvertToAt(ctx, v, c, 3);
    assert ToJson(ctx, v, level) == ConvertToJson(ctx, v);
  }

  lemma PrimitiveFromJson(ctx: Context, v: JValue, c: ClassRef)
    requires ctx.converters == DefaultConverters
    requires !v.Null? && !v.OrgArrayVal? && !v.JSONNullVal?
    requires Supports(ctx.converters[3], c)
    requires forall j :: 0 <= j < 3 ==> !Supports(ctx.converters[j], c)
    ensures FromJson(ctx, v, c) == Ok(v)
  {
    ConvertFromAt(ctx, v, c, 3);
    assert FromJson(ctx, v, c) == ConvertFromJson(ctx, v, c);
  }

  /** Among the built-in converters, only the primitive one supports the class of a primitive value. */
  lemma PrimitiveConverterFirst(cs: seq<TypeConverter>, v: JValue, c: ClassRef)
    requires cs == DefaultConverters
    requires !v.ArrayVal? && !v.EnumVal? && Typed(v, c)
    ensures ClassOf(v) == Some(c) && Supports(cs[3], c)
    ensures forall j :: 0 <= j < 3 ==> !Supports(cs[j], c)
  {
    TypedClass(v, c);
    assert !Supports(cs[0], c) && !Supports(cs[1], c) && !Supports(cs[2], c);
  }

  lemma {:induction false} ArrayRoundTrip(ctx: Context, v: JValue, c: ClassRef, level: nat)
    requires ctx.converters == DefaultConverters
    requires v.ArrayVal? && Typed(v, c) && level + Depth(ctx.converters, v) <= MaxObjectDepthLevel + 1
    ensures ToJson(ctx, v, level).Ok? && ToJson(ctx, v, level).value.OrgArrayVal?
    ensures FromJson(ctx, ToJson(ctx, v, level).value, c) == Ok(v)
    decreases v, 0, |v.elements| + 1
  {
    ElementsWithinDepth(ctx.converters, v, level);
    ElementsRoundTrip(ctx, v, level + 1);
    ArrayDecodeBack(ctx, v, c, level);
  }

  /** An array whose elements each survive the round trip converts to a JSON array that decodes back to it. */
  lemma ArrayDecodeBack(ctx: Context, v: JValue, c: ClassRef, level: nat)
    requires v.ArrayVal? && c == ArrayType(v.component) && !v.component.PrimitiveType? && level <= MaxObjectDepthLevel
    requires forall i :: 0 <= i < |v.elements| ==> ElementRoundTrips(ctx, v.elements[i], v.component, level + 1)
    ensures ToJson(ctx, v, level).Ok? && ToJson(ctx, v, level).value.OrgArrayVal?
    ensures FromJson(ctx, ToJson(ctx, v, level).value, c) == Ok(v)
  {
    ElementsDecodeBack(ctx, v, level + 1);
    var items := ToJsonElements(ctx, v, |v.elements|, level + 1).value;
    assert ToJson(ctx, v, level) == Ok(OrgArrayVal(items));
    assert FromJson(ctx, OrgArrayVal(items), c) == FromJsonArray(ctx, OrgArrayVal(items), v.component);
  }

  lemma ElementsWithinDepth(cs: seq<TypeConverter>, v: JValue, level: nat)
    requires v.ArrayVal? && level + Depth(cs, v) <= MaxObjectDepthLevel + 1
    ensures forall i :: 0 <= i < |v.elements| ==> level + 1 + Depth(cs, v.elements[i]) <= MaxObjectDepthLevel + 1
  {
    forall i | 0 <= i < |v.elements|
      ensures level + 1 + Depth(cs, v.elements[i]) <= MaxObjectDepthLevel + 1
    {
      ElementsDepthBound(cs, v, |v.elements|, i);
    }
  }

  /** Each element of a typed array survives the round trip on its own and can be stored back. */
  lemma {:induction false} ElementsRoundTrip(ctx: Context, v: JValue, level: nat)
    requires ctx.converters == DefaultConverters
    requires v.ArrayVal? && !v.component.PrimitiveType?
    requires forall i :: 0 <= i < |v.elements| ==> Typed(v.elements[i], v.component)
    requires forall i :: 0 <= i < |v.elements| ==> level + Depth(ctx.converters, v.elements[i]) <= MaxObjectDepthLevel + 1
    ensures forall i :: 0 <= i < |v.elements| ==> ElementRoundTrips(ctx, v.elements[i], v.component, level)
    decreases v, 0, |v.elements|
  {
    forall i | 0 <= i < |v.elements|
      ensures ElementRoundTrips(ctx, v.elements[i], v.component, level)
    {
      RoundTrip(ctx, v.elements[i], v.component, level);
      TypedStorable(v.elements[i], v.component);
    }
  }

  /** A value that converts to a non-null JSON value which decodes back to it, and that an array of the component can hold. */
  predicate ElementRoundTrips(ctx: Context, e: JValue, component: ClassRef, level: nat)
  {
    ToJson(ctx, e, level).Ok? && !ToJson(ctx, e, level).value.Null?
    && FromJson(ctx, ToJson(ctx, e, level).value, component) == Ok(e) && Storable(component, e)
  }

  /** When every element survives the round trip, so does the whole sequence of elements. */
  lemma ElementsDecodeBack(ctx: Context, v: JValue, level: nat)
    requires v.ArrayVal?
    requires forall i :: 0 <= i < |v.elements| ==> ElementRoundTrips(ctx, v.elements[i], v.component, level)
    ensures ToJsonElements(ctx, v, |v.elements|, level).Ok?
    ensures FromJsonElements(ctx, OrgArrayVal(ToJsonElements(ctx, v, |v.elements|, level).value), v.component, |v.elements|)
              == Ok(v.elements)
  {
    var n := |v.elements|;
    ToJsonElementsOk(ctx, v, n, level);
    var items := ToJsonElements(ctx, v, n, level).value;
    ElementsShape(ctx, v, n, level);
    FromJsonElementsPointwise(ctx, items, v.component, v.elements, n);
    assert v.elements[..n] == v.elements;
  }

  lemma {:induction false} ToJsonElementsOk(ctx: Context, v: JValue, k: nat, level: nat)
    requires (v.ArrayVal? || v.CollectionVal?) && k <= |v.elements|
    requires forall i :: 0 <= i < k ==> ToJson(ctx, v.elements[i], level).Ok?
    ensures ToJsonElements(ctx, v, k, level).Ok?
  {
    if k > 0 {
      ToJsonElementsOk(ctx, v, k - 1, level);
    }
  }

  /** Entries that each decode to a storable value decode, in order, to those values. */
  lemma {:induction false} FromJsonElementsPointwise(ctx: Context, list: seq<JValue>, component: ClassRef, xs: seq<JValue>, k: nat)
    requires k <= |list| && k <= |xs|
    requires forall i :: 0 <= i < k ==>
      !list[i].Null? && FromJson(ctx, list[i], component) == Ok(xs[i]) && Storable(component, xs[i])
    ensures FromJsonElements(ctx, OrgArrayVal(list), component, k) == Ok(xs[..k])
  {
    if k > 0 {
      FromJsonElementsPointwise(ctx, list, component, xs, k - 1);
      FromJsonElementStep(ctx, OrgArrayVal(list), component, k, xs[..k - 1], xs[k - 1]);
      assert xs[..k] == xs[..k - 1] + [xs[k - 1]];
    }
  }

  lemma TypedStorable(v: JValue, c: ClassRef)
    requires Typed(v, c) && !c.PrimitiveType?
    ensures Storable(c, v)
  {
    TypedClass(v, c);
  }

  lemma FromJsonElementStep(ctx: Context, v: JValue, component: ClassRef, k: nat, prefix: seq<JValue>, x: JValue)
    requires v.OrgArrayVal? && 0 < k <= |v.list|
    requires FromJsonElements(ctx, v, component, k - 1) == Ok(prefix)
    requires !v.list[k - 1].Null? && FromJson(ctx, v.list[k - 1], component) == Ok(x) && Storable(component, x)
    ensures FromJsonElements(ctx, v, component, k) == Ok(prefix + [x])
  {
  }

  /** Decoding the first `k` entries looks at nothing past them. */
  lemma {:induction false} FromJsonElementsPrefix(ctx: Context, xs: seq<JValue>, ys: seq<JValue>, component: ClassRef, k: nat)
    requires k <= |xs| && k <= |ys| && xs[..k] == ys[..k]
    ensures FromJsonElements(ctx, OrgArrayVal(xs), component, k) == FromJsonElements(ctx, OrgArrayVal(ys), component, k)
    decreases k
  {
    if k > 0 {
      assert xs[..k - 1] == ys[..k - 1];
      assert xs[k - 1] == xs[..k][k - 1];
      FromJsonElementsPrefix(ctx, xs, ys, component, k - 1);
    }
  }

  // ----- toJSONString -----

  predicate NumberValue(v: JValue)
  {
    (v.IntegralVal? && v.kind != PBoolean && v.kind != PChar) || v.BigIntegerVal? || v.BigDecimalVal?
  }

  /**
   * `toJSONString(value, indent)`: "null" for null, a number's decimal
   * text, "true"/"false", an org.json container in org.json's own text
   * (indented by 4 when asked), and the quoted `toString()` of anything
   * else.
   */
  function ToJsonString(p: Platform, v: JValue, indent: bool): (r: string)
    ensures v.Null? ==> r == "null"
    ensures v.BoolVal? ==> r == (if v.b then "true" else "false")
    ensures v.StrVal? ==> r == p.quote(v.s)
    ensures v.EnumVal? ==> r == p.quote(v.name)
  {
    if v.Null? then "null"
    else if NumberValue(v) then IntToString(v.n)
    else if v.BoolVal? then ToText(p, v)
    else if v.OrgObjectVal? || v.OrgArrayVal? then p.jsonText(v, if indent then 4 else 0)
    else p.quote(ToText(p, v))
  }

  /** The text `toJSONString` gives a number reads back as the same number. */
  lemma {:induction false} NumberTextRoundTrip(p: Platform, v: JValue, indent: bool)
    requires NumberValue(v)
    ensures ParseDecimal(ToJsonString(p, v, indent)) == Some(v.n)
  {
    DecimalRoundTrip(v.n);
  }

  // ----- the class -----

  /** The static state of `JSONUtil`: the converter list, most recently registered first. */
  class JSONUtil {
    var typeConverters: seq<TypeConverter>
    const platform: Platform
    const reflection: Reflection

    function Ctx(): Context
      reads this
    {
      Context(typeConverters, platform, reflection)
    }

    /** The static initialiser. */
    constructor(platform: Platform, reflection: Reflection)
      ensures typeConverters == DefaultConverters
      ensures this.platform == platform && this.reflection == reflection
    {
      this.platform := platform;
      this.reflection := reflection;
      typeConverters := [];
      new;
      RegisterTypeConverter(PrimitiveConverter);
      RegisterTypeConverter(UrlConverter);
      RegisterTypeConverter(DateConverter(DefaultDatePattern));
      RegisterTypeConverter(EnumConverter);
    }

    /** `registerTypeConverter`: `addFirst`. */
    method RegisterTypeConverter(c: TypeConverter)
      modifies this
      ensures typeConverters == [c] + old(typeConverters)
    {
      typeConverters := [c] + typeConverters;
    }

    /** `canConvert(clazz)`. */
    method CanConvert(clazz: ClassRef) returns (r: bool)
      ensures r <==> exists i :: 0 <= i < |typeConverters| && Supports(typeConverters[i], clazz)
    {
      var i := 0;
      while i < |typeConverters|
        invariant 0 <= i <= |typeConverters|
        invariant forall j :: 0 <= j < i ==> !Supports(typeConverters[j], clazz)
      {
        if Supports(typeConverters[i], clazz) {
          return true;
        }
        i := i + 1;
      }
      return false;
    }

    /** `convertToJSON(object)`. */
    method ConvertToJSON(v: JValue) returns (r: Result<JValue>)
      ensures r == ConvertToJson(Ctx(), v)
    {
      if v.Null? || v.JSONNullVal? {
        return Ok(Null);
      }
      ghost var ctx := Ctx();
      var cs, clazz := typeConverters, ClassOf(v).value;
      var i := 0;
      while i < |cs|
        invariant 0 <= i <= |cs|
        invariant forall j :: 0 <= j < i ==> !Supports(cs[j], clazz)
      {
        if Supports(cs[i], clazz) {
          ConvertToAt(ctx, v, clazz, i);
          return ConverterToJson(platform, cs[i], v, clazz);
        }
        i := i + 1;
      }
      return Err(UnknownType(clazz));
    }

    /** `convertFromJSON(object, clazz)`. */
    method ConvertFromJSON(v: JValue, clazz: ClassRef) returns (r: Result<JValue>)
      ensures r == ConvertFromJson(Ctx(), v, clazz)
    {
      if v.Null? {
        return Ok(JSONNullVal);
      }
      var i := 0;
      while i < |typeConverters|
        invariant 0 <= i <= |typeConverters|
        invariant forall j :: 0 <= j < i ==> !Supports(typeConverters[j], clazz)
      {
        if Supports(typeConverters[i], clazz) {
          ConvertFromAt(Ctx(), v, clazz, i);
          r := CallFromJson(platform, typeConverters[i], v, clazz);
          return;
        }
        i := i + 1;
      }
      return Err(UnknownType(clazz));
    }

    /** `toJSON(object, level)`; the public `toJSON(object)` is level 0. */
    method ToJSON(v: JValue, level: nat) returns (r: Result<JValue>)
      ensures r == ToJson(Ctx(), v, level)
      decreases v, 2
    {
      if v.Null? {
        return Ok(Null);
      }
      if v.ArrayVal? {
        if v.component.PrimitiveType? {
          return Err(ClassCast());
        }
        r := ToJSONArray(v, level);
        return;
      }
      if v.CollectionVal? {
        r := ToJSONArray(v, level);
        return;
      }
      var convertible := CanConvert(ClassOf(v).value);
      if convertible {
        r := ConvertToJSON(v);
      } else {
        r := ToJSONObject(v, level);
      }
    }

    /** `toJSONArray(objects, level)`. */
    method ToJSONArray(v: JValue, level: nat) returns (r: Result<JValue>)
      requires v.ArrayVal? || v.CollectionVal?
      ensures r == ToJsonArray(Ctx(), v, level)
      decreases v, 1
    {
      if level > MaxObjectDepthLevel {
        return Err(DepthExceeded());
      }
      var items: seq<JValue> := [];
      var i := 0;
      while i < |v.elements|
        invariant 0 <= i <= |v.elements|
        invariant ToJsonElements(Ctx(), v, i, level + 1) == Ok(items)
      {
        var x := ToJSON(v.elements[i], level + 1);
        if x.Err? {
          ElementFailureStays(Ctx(), v, i + 1, |v.elements|, level + 1);
          return Err(x.thrown);
        }
        items := items + [x.value];
        i := i + 1;
      }
      return Ok(OrgArrayVal(items));
    }

    /** `toJSONObject(object, level)`. */
    method ToJSONObject(v: JValue, level: nat) returns (r: Result<JValue>)
      requires !v.Null?
      ensures r == ToJsonObject(Ctx(), v, level)
      decreases v, 1
    {
      if level > MaxObjectDepthLevel {
        return Err(DepthExceeded());
      }
      var m: map<string, JValue> := map[];
      var i := 0;
      while i < PropertyCount(v)
        invariant 0 <= i <= PropertyCount(v)
        invariant PutProperties(Ctx(), v, i, level + 1) == Ok(m)
      {
        var x := ToJSON(v.values[i], level + 1);
        if x.Err? {
          PropertyFailureStays(Ctx(), v, i + 1, PropertyCount(v), level + 1);
          return Err(x.thrown);
        }
        m := Put(m, PropertyName(v, i), x.value);
        i := i + 1;
      }
      return Ok(OrgObjectVal(m));
    }

    /** `fromJSON(object, type)`. */
    method FromJSON(v: JValue, clazz: ClassRef) returns (r: Result<JValue>)
      ensures r == FromJson(Ctx(), v, clazz)
      decreases v, 2
    {
      if v.Null? || v.JSONNullVal? {
        return Ok(Null);
      }
      ghost var ctx := Ctx();
      if v.OrgArrayVal? {
        if clazz.ArrayType? {
          assert FromJson(ctx, v, clazz) == FromJsonArray(ctx, v, clazz.component);
          r := FromJSONArrayToArray(v, clazz.component);
        } else {
          r := reflection.toCollection(v, clazz);
        }
        return;
      }
      var convertible := CanConvert(clazz);
      assert convertible == Convertible(ctx.converters, clazz);
      if convertible {
        assert FromJson(ctx, v, clazz) == ConvertFromJson(ctx, v, clazz);
        r := ConvertFromJSON(v, clazz);
      } else if !v.OrgObjectVal? {
        r := Err(ClassCast());
      } else if clazz.BeanType? {
        assert FromJson(ctx, v, clazz) == FromJsonObject(ctx, v, clazz);
        r := FromJSONObject(v, clazz);
      } else {
        r := reflection.instantiate(v, clazz);
      }
    }

    /** `fromJSONArrayToArray(array, valueType)`. */
    method FromJSONArrayToArray(v: JValue, component: ClassRef) returns (r: Result<JValue>)
      requires v.OrgArrayVal?
      ensures r == FromJsonArray(Ctx(), v, component)
      decreases v, 1
    {
      if component.PrimitiveType? {
        return Err(ClassCast());
      }
      ghost var ctx := Ctx();
      var xs: seq<JValue> := [];
      var i := 0;
      while i < |v.list|
        invariant 0 <= i <= |v.list|
        invariant FromJsonElements(ctx, v, component, i) == Ok(xs)
      {
        if v.list[i].Null? {
          ArrayFailsAt(ctx, v, component, i + 1, JSONException());
          return Err(JSONException());
        }
        var x := FromJSON(v.list[i], component);
        if x.Err? {
          ArrayFailsAt(ctx, v, component, i + 1, x.thrown);
          return Err(x.thrown);
        }
        if !Storable(component, x.value) {
          ArrayFailsAt(ctx, v, component, i + 1, ArrayStore());
          return Err(ArrayStore());
        }
        FromJsonElementStep(ctx, v, component, i + 1, xs, x.value);
        xs := xs + [x.value];
        i := i + 1;
      }
      return Ok(ArrayVal(component, xs));
    }

    /** `fromJSONObject(object, type)` for a bean class. */
    method FromJSONObject(v: JValue, t: ClassRef) returns (r: Result<JValue>)
      requires v.OrgObjectVal? && t.BeanType?
      ensures r == FromJsonObject(Ctx(), v, t)
      decreases v, 1
    {
      var xs: seq<JValue> := [];
      var i := 0;
      while i < |t.properties|
        invariant 0 <= i <= |t.properties|
        invariant SetProperties(Ctx(), v, t, i) == Ok(xs)
      {
        var p := t.properties[i];
        if p.name !in v.fields {
          SetterFailureStays(Ctx(), v, t, i + 1, |t.properties|);
          return Err(JSONException());
        }
        var x := FromJSON(v.fields[p.name], p.ptype);
        if x.Err? {
          SetterFailureStays(Ctx(), v, t, i + 1, |t.properties|);
          return Err(x.thrown);
        }
        if !Storable(p.ptype, x.value) {
          SetterFailureStays(Ctx(), v, t, i + 1, |t.properties|);
          return Err(IllegalArgument(Some("argument type mismatch")));
        }
        xs := xs + [StoredElement(p.ptype, x.value)];
        i := i + 1;
      }
      return Ok(BeanVal(t, xs));
    }
  }

  // ----- the first failure ends each loop -----

  lemma {:induction false} ElementFailureStays(ctx: Context, v: JValue, i: nat, n: nat, level: nat)
    requires v.ArrayVal? || v.CollectionVal?
    requires 0 < i <= n <= |v.elements|
    requires ToJsonElements(ctx, v, i - 1, level).Ok? && ToJson(ctx, v.elements[i - 1], level).Err?
    ensures ToJsonElements(ctx, v, n, level) == Err(ToJson(ctx, v.elements[i - 1], level).thrown)
    decreases n
  {
    if n > i {
      ElementFailureStays(ctx, v, i, n - 1, level);
    }
  }

  lemma {:induction false} PropertyFailureStays(ctx: Context, v: JValue, i: nat, n: nat, level: nat)
    requires 0 < i <= n <= PropertyCount(v)
    requires PutProperties(ctx, v, i - 1, level).Ok? && ToJson(ctx, v.values[i - 1], level).Err?
    ensures PutProperties(ctx, v, n, level) == Err(ToJson(ctx, v.values[i - 1], level).thrown)
    decreases n
  {
    if n > i {
      PropertyFailureStays(ctx, v, i, n - 1, level);
    }
  }

  /** A failure at some entry is the failure of the whole array. */
  lemma ArrayFailsAt(ctx: Context, v: JValue, component: ClassRef, i: nat, e: Throwable)
    requires v.OrgArrayVal? && !component.PrimitiveType? && 0 < i <= |v.list|
    requires FromJsonElements(ctx, v, component, i) == Err(e)
    ensures FromJsonArray(ctx, v, component) == Err(e)
  {
    EntryFailureStays(ctx, v, component, i, |v.list|);
  }

  lemma {:induction false} EntryFailureStays(ctx: Context, v: JValue, component: ClassRef, i: nat, n: nat)
    requires v.OrgArrayVal?
    requires 0 < i <= n <= |v.list|
    requires FromJsonElements(ctx, v, component, i).Err?
    ensures FromJsonElements(ctx, v, component, n) == FromJsonElements(ctx, v, component, i)
    decreases n
  {
    if n > i {
      EntryFailureStays(ctx, v, component, i, n - 1);
    }
  }

  lemma {:induction false} SetterFailureStays(ctx: Context, v: JValue, t: ClassRef, i: nat, n: nat)
    requires v.OrgObjectVal? && t.BeanType?
    requires 0 < i <= n <= |t.properties|
    requires SetProperties(ctx, v, t, i).Err?
    ensures SetProperties(ctx, v, t, n) == SetProperties(ctx, v, t, i)
    decreases n
  {
    if n > i {
      SetterFailureStays(ctx, v, t, i, n - 1);
    }
  }
}
