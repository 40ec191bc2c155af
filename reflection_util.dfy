/**
 * `ReflectionUtil`: memoised access to the methods of a class by name, to
 * the parameter types and to the annotations of a method.  The four static
 * caches become the fields of one `ReflectionCache` object; every entry of
 * a cache equals what a fresh reflective lookup returns.
 */
module ReflectionUtil {
  import opened Common
  import opened Failures
  import opened JavaModel

  /** The key of the method cache: the class name, "::" and the method name. */
  function CacheKey(className: ClassName, name: string): string
  {
    className + "::" + name
  }

  /** Distinct (class, method name) pairs have distinct cache keys, because class names hold no ':'. */
  lemma CacheKeyInjective(a: ClassName, n: string, b: ClassName, m: string)
    requires CacheKey(a, n) == CacheKey(b, m)
    ensures a == b && n == m
  {
    var key := CacheKey(a, n);
    if |a| < |b| {
      KeyCharacter(a, n, |a|);
      KeyCharacter(b, m, |a|);
      assert false;
    } else if |b| < |a| {
      KeyCharacter(a, n, |b|);
      KeyCharacter(b, m, |b|);
      assert false;
    }
    assert a == key[..|a|] == b;
    assert n == key[|a| + 2..] == m;
  }

  /** A cache key spells the class name and then ':'. */
  lemma KeyCharacter(a: ClassName, n: string, i: nat)
    ensures i < |a| ==> CacheKey(a, n)[i] == a[i] != ':'
    ensures i == |a| ==> CacheKey(a, n)[i] == ':'
  {
  }

  /** The annotations of `anns` of type `t`, in order (`getAnnotations(method, type)`). */
  function OfType(anns: seq<Annotation>, t: AnnotationType): (r: seq<Annotation>)
    ensures |r| <= |anns|
    ensures forall a :: a in r <==> a in anns && HasType(a, t)
  {
    if anns == [] then []
    else (if HasType(anns[0], t) then [anns[0]] else []) + OfType(anns[1..], t)
  }

  /** The first annotation of `anns` of type `t`, or null (`getAnnotation(method, type)`). */
  function FirstOfType(anns: seq<Annotation>, t: AnnotationType): (r: Option<Annotation>)
    ensures r.Some? ==> r.value in anns && HasType(r.value, t)
    ensures r.None? <==> forall a :: a in anns ==> !HasType(a, t)
  {
    if anns == [] then None
    else if HasType(anns[0], t) then Some(anns[0])
    else FirstOfType(anns[1..], t)
  }

  /** `getAnnotation` returns the head of the list `getAnnotations` returns for the same type. */
  lemma {:induction false} FirstOfTypeIsHeadOfOfType(anns: seq<Annotation>, t: AnnotationType)
    ensures FirstOfType(anns, t) == (if OfType(anns, t) == [] then None else Some(OfType(anns, t)[0]))
  {
    if anns != [] && !HasType(anns[0], t) {
      FirstOfTypeIsHeadOfOfType(anns[1..], t);
    }
  }

  /** The per-parameter annotations of type `t` (`getParameterAnnotations(method, type)`). */
  function ParamOfType(params: seq<seq<Annotation>>, t: AnnotationType): (r: seq<seq<Annotation>>)
    ensures |r| == |params|
    ensures forall i :: 0 <= i < |params| ==> r[i] == OfType(params[i], t)
  {
    seq(|params|, i requires 0 <= i < |params| => OfType(params[i], t))
  }

  /** Which class and method name a method-cache entry was computed for. */
  datatype CacheOrigin = CacheOrigin(cls: JavaClass, name: string)

  class ReflectionCache {
    var methodCache: map<string, set<MethodInfo>>
    var parameterTypeCache: map<MethodInfo, seq<ClassRef>>
    var methodAnnotationCache: map<MethodInfo, seq<Annotation>>
    var methodParamAnnotationCache: map<MethodInfo, seq<seq<Annotation>>>
    ghost var origin: map<string, CacheOrigin>

    /** Every cached entry is what the reflective lookup it memoises returns. */
    ghost predicate Valid()
      reads this
    {
      (forall key :: key in methodCache ==>
         key in origin && CacheKey(origin[key].cls.name, origin[key].name) == key
         && methodCache[key] == NamedMethods(origin[key].cls, origin[key].name))
      && (forall m :: m in parameterTypeCache ==> parameterTypeCache[m] == m.paramTypes)
      && (forall m :: m in methodAnnotationCache ==> methodAnnotationCache[m] == m.annotations)
      && (forall m :: m in methodParamAnnotationCache ==> methodParamAnnotationCache[m] == m.paramAnnotations)
    }

    /** The cached classes named like `c` are `c`: one class per name, as in a single class loader. */
    ghost predicate Knows(c: JavaClass)
      reads this
    {
      forall key :: key in origin && origin[key].cls.name == c.name ==> origin[key].cls == c
    }

    constructor ()
      ensures Valid()
      ensures methodCache == map[] && parameterTypeCache == map[]
      ensures methodAnnotationCache == map[] && methodParamAnnotationCache == map[]
    {
      methodCache := map[];
      parameterTypeCache := map[];
      methodAnnotationCache := map[];
      methodParamAnnotationCache := map[];
      origin := map[];
    }

    /**
     * `findMethods(clazz, name)`: the public methods of `c` called `name`,
     * from the cache when the key is there, computed and cached otherwise.
     * A null name fails while the key is built.
     */
    method FindMethods(c: JavaClass, name: Option<string>) returns (r: Result<set<MethodInfo>>)
      requires Valid() && Knows(c)
      modifies this
      ensures Valid() && Knows(c)
      ensures name.None? ==> r == Err(NullPointer()) && methodCache == old(methodCache)
      ensures name.Some? ==> r == Ok(NamedMethods(c, name.value))
      ensures name.Some? ==> methodCache == old(methodCache)[CacheKey(c.name, name.value) := NamedMethods(c, name.value)]
      ensures parameterTypeCache == old(parameterTypeCache)
      ensures methodAnnotationCache == old(methodAnnotationCache)
      ensures methodParamAnnotationCache == old(methodParamAnnotationCache)
    {
      if name.None? {
        return Err(NullPointer());
      }
      var key := CacheKey(c.name, name.value);
      if key in methodCache {
        CacheKeyInjective(origin[key].cls.name, origin[key].name, c.name, name.value);
        return Ok(methodCache[key]);
      }
      var methods: set<MethodInfo> := {};
      var i := 0;
      while i < |c.methods|
        invariant 0 <= i <= |c.methods|
        invariant methods == set m | m in c.methods[..i] && m.name == name.value
      {
        if c.methods[i].name == name.value {
          methods := methods + {c.methods[i]};
        }
        i := i + 1;
      }
      assert c.methods[..i] == c.methods;
      methodCache := methodCache[key := methods];
      origin := origin[key := CacheOrigin(c, name.value)];
      r := Ok(methods);
    }

    /** `getParameterTypes(method)`: the declared parameter types, memoised. */
    method GetParameterTypes(m: MethodInfo) returns (types: seq<ClassRef>)
      requires Valid()
      modifies this
      ensures Valid() && origin == old(origin)
      ensures types == m.paramTypes
      ensures parameterTypeCache == old(parameterTypeCache)[m := m.paramTypes]
      ensures methodCache == old(methodCache)
      ensures methodAnnotationCache == old(methodAnnotationCache)
      ensures methodParamAnnotationCache == old(methodParamAnnotationCache)
    {
      if m in parameterTypeCache {
        return parameterTypeCache[m];
      }
      types := [];
      for i := 0 to |m.paramTypes|
        invariant types == m.paramTypes[..i]
      {
        types := types + [m.paramTypes[i]];
      }
      parameterTypeCache := parameterTypeCache[m := types];
    }

    /** `getAnnotations(method)`: the annotations of the method, memoised. */
    method GetAnnotations(m: MethodInfo) returns (anns: seq<Annotation>)
      requires Valid()
      modifies this
      ensures Valid() && origin == old(origin)
      ensures anns == m.annotations
      ensures methodAnnotationCache == old(methodAnnotationCache)[m := m.annotations]
      ensures methodCache == old(methodCache)
      ensures parameterTypeCache == old(parameterTypeCache)
      ensures methodParamAnnotationCache == old(methodParamAnnotationCache)
    {
      if m in methodAnnotationCache {
        return methodAnnotationCache[m];
      }
      anns := [];
      for i := 0 to |m.annotations|
        invariant anns == m.annotations[..i]
      {
        anns := anns + [m.annotations[i]];
      }
      methodAnnotationCache := methodAnnotationCache[m := anns];
    }

    /** `getAnnotations(method, type)`: the method's annotations of type `t`, in order. */
    method GetAnnotationsOfType(m: MethodInfo, t: AnnotationType) returns (r: seq<Annotation>)
      requires Valid()
      modifies this
      ensures Valid() && origin == old(origin)
      ensures r == OfType(m.annotations, t)
      ensures methodAnnotationCache == old(methodAnnotationCache)[m := m.annotations]
      ensures methodCache == old(methodCache)
      ensures parameterTypeCache == old(parameterTypeCache)
      ensures methodParamAnnotationCache == old(methodParamAnnotationCache)
    {
      var all := GetAnnotations(m);
      r := [];
      var i := |all|;
      while i > 0
        invariant 0 <= i <= |all|
        invariant r == OfType(all[i..], t)
      {
        i := i - 1;
        assert all[i..][1..] == all[i + 1..];
        if HasType(all[i], t) {
          r := [all[i]] + r;
        }
      }
      assert all[0..] == all;
    }

    /** `getAnnotation(method, type)`: the method's first annotation of type `t`, or null. */
    method GetAnnotation(m: MethodInfo, t: AnnotationType) returns (r: Option<Annotation>)
      requires Valid()
      modifies this
      ensures Valid() && origin == old(origin)
      ensures r == FirstOfType(m.annotations, t)
      ensures methodAnnotationCache == old(methodAnnotationCache)[m := m.annotations]
      ensures methodCache == old(methodCache)
      ensures parameterTypeCache == old(parameterTypeCache)
      ensures methodParamAnnotationCache == old(methodParamAnnotationCache)
    {
      var all := GetAnnotations(m);
      var i := 0;
      while i < |all|
        invariant 0 <= i <= |all|
        invariant FirstOfType(all, t) == FirstOfType(all[i..], t)
      {
        assert all[i..][1..] == all[i + 1..];
        if HasType(all[i], t) {
          return Some(all[i]);
        }
        i := i + 1;
      }
      return None;
    }

    /** `getParameterAnnotations(method)`: the annotations of each parameter, memoised. */
    method GetParameterAnnotations(m: MethodInfo) returns (anns: seq<seq<Annotation>>)
      requires Valid()
      modifies this
      ensures Valid() && origin == old(origin)
      ensures anns == m.paramAnnotations
      ensures methodParamAnnotationCache == old(methodParamAnnotationCache)[m := m.paramAnnotations]
      ensures methodCache == old(methodCache)
      ensures parameterTypeCache == old(parameterTypeCache)
      ensures methodAnnotationCache == old(methodAnnotationCache)
    {
      if m in methodParamAnnotationCache {
        return methodParamAnnotationCache[m];
      }
      anns := [];
      for i := 0 to |m.paramAnnotations|
        invariant anns == m.paramAnnotations[..i]
      {
        var list: seq<Annotation> := [];
        for j := 0 to |m.paramAnnotations[i]|
          invariant list == m.paramAnnotations[i][..j]
        {
          list := list + [m.paramAnnotations[i][j]];
        }
        assert list == m.paramAnnotations[i];
        anns := anns + [list];
      }
      methodParamAnnotationCache := methodParamAnnotationCache[m := anns];
    }

    /** `getParameterAnnotations(method, type)`: for each parameter, its annotations of type `t`. */
    method GetParameterAnnotationsOfType(m: MethodInfo, t: AnnotationType) returns (r: seq<seq<Annotation>>)
      requires Valid()
      modifies this
      ensures Valid() && origin == old(origin)
      ensures r == ParamOfType(m.paramAnnotations, t)
      ensures methodParamAnnotationCache == old(methodParamAnnotationCache)[m := m.paramAnnotations]
      ensures methodCache == old(methodCache)
      ensures parameterTypeCache == old(parameterTypeCache)
      ensures methodAnnotationCache == old(methodAnnotationCache)
    {
      var all := GetParameterAnnotations(m);
      r := [];
      for i := 0 to |all|
        invariant |r| == i
        invariant forall k :: 0 <= k < i ==> r[k] == OfType(all[k], t)
      {
        var list: seq<Annotation> := [];
        var j := |all[i]|;
        while j > 0
          invariant 0 <= j <= |all[i]|
          invariant list == OfType(all[i][j..], t)
        {
          j := j - 1;
          assert all[i][j..][1..] == all[i][j + 1..];
          if HasType(all[i][j], t) {
            list := [all[i][j]] + list;
          }
        }
        assert all[i][0..] == all[i];
        r := r + [list];
      }
    }
  }
}
