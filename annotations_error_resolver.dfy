/**
 * `AnnotationsErrorResolver`: turns a throwable raised by a service method
 * into a JSON-RPC error through the method's `@JsonRpcErrors` annotation.
 */
module AnnotationsErrorResolver {
  import opened Common
  import opened Failures
  import opened JavaModel
  import opened ReflectionUtil
  import opened ErrorMappings

  /** A `JsonError`: code, message and data. */
  datatype JsonError = JsonError(code: int, message: string, data: Option<string>)

  /**
   * `resolveError(t, method, arguments)`: the error of the first mapping of
   * the method's first `@JsonRpcErrors` annotation that matches `t`; its
   * data is the mapping's data unless that is blank, and the throwable's
   * message then.  Null when nothing maps `t`.
   */
  function ResolveError(t: Throwable, m: MethodInfo): (r: Option<JsonError>)
    ensures (forall a :: a in m.annotations ==> !a.RpcErrors?) ==> r.None?
    ensures r.Some? ==> exists em :: Matches(em, t) && r.value.code == em.code && r.value.message == em.message
  {
    match FirstOfType(m.annotations, RpcErrorsType)
    case None => None
    case Some(errors) =>
      match FirstMatch(errors.mappings, t)
      case None => None
      case Some(em) => Some(JsonError(em.code, em.message, if !IsBlank(em.data) then Some(em.data) else t.message))
  }

  /**
   * The resolver answers exactly when the first `@JsonRpcErrors` annotation
   * maps the throwable, and then with that mapping's code and message and
   * with data that is the mapping's own when it is not blank.
   */
  lemma ResolveErrorSpec(t: Throwable, m: MethodInfo)
    ensures var errors := FirstOfType(m.annotations, RpcErrorsType);
      ResolveError(t, m).Some? <==>
        errors.Some? && exists k :: 0 <= k < |errors.value.mappings| && Matches(errors.value.mappings[k], t)
    ensures ResolveError(t, m).Some? ==>
      var errors := FirstOfType(m.annotations, RpcErrorsType).value;
      var em := FirstMatch(errors.mappings, t).value;
      var e := ResolveError(t, m).value;
      em in errors.mappings && Matches(em, t)
      && e.code == em.code && e.message == em.message
      && (e.data == Some(em.data) <== !IsBlank(em.data))
      && (IsBlank(em.data) ==> e.data == t.message)
  {
    var errors := FirstOfType(m.annotations, RpcErrorsType);
    if errors.Some? {
      assert errors.value.RpcErrors? by {
        assert HasType(errors.value, RpcErrorsType);
      }
    }
  }

  /** A method without a `@JsonRpcErrors` annotation resolves no throwable. */
  lemma UnannotatedResolvesNothing(t: Throwable, m: MethodInfo)
    requires forall a :: a in m.annotations ==> !a.RpcErrors?
    ensures ResolveError(t, m).None?
  {
  }
}
