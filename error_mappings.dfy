/**
 * The search both `JsonRpcServer` and `AnnotationsErrorResolver` perform
 * over the elements of a `@JsonRpcErrors` annotation: the first mapping
 * whose exception class the throwable is an instance of.
 */
module ErrorMappings {
  import opened Common
  import opened Failures
  import opened JavaModel

  predicate Matches(em: ErrorMapping, t: Throwable)
  {
    IsInstance(t, em.exception)
  }

  /** The position of the first mapping that matches `t`, or None when none does. */
  function FirstMatchIndex(mappings: seq<ErrorMapping>, t: Throwable): (r: Option<nat>)
    ensures r.None? <==> forall k :: 0 <= k < |mappings| ==> !Matches(mappings[k], t)
    ensures r.Some? ==> r.value < |mappings| && Matches(mappings[r.value], t)
    ensures r.Some? ==> forall k :: 0 <= k < r.value ==> !Matches(mappings[k], t)
  {
    if mappings == [] then None
    else if Matches(mappings[0], t) then Some(0)
    else
      var rest := FirstMatchIndex(mappings[1..], t);
      assert forall k :: 1 <= k < |mappings| ==> mappings[k] == mappings[1..][k - 1];
      if rest.None? then None else Some(rest.value + 1)
  }

  /** The first mapping that matches `t`. */
  function FirstMatch(mappings: seq<ErrorMapping>, t: Throwable): (r: Option<ErrorMapping>)
    ensures r.Some? <==> exists k :: 0 <= k < |mappings| && Matches(mappings[k], t)
    ensures r.Some? ==> r.value in mappings && Matches(r.value, t)
  {
    var i := FirstMatchIndex(mappings, t);
    if i.Some? then Some(mappings[i.value]) else None
  }

  /** Mappings placed after a matching one are never consulted. */
  lemma LaterMappingsIgnored(mappings: seq<ErrorMapping>, more: seq<ErrorMapping>, t: Throwable)
    requires FirstMatch(mappings, t).Some?
    ensures FirstMatch(mappings + more, t) == FirstMatch(mappings, t)
  {
    var i := FirstMatchIndex(mappings, t).value;
    var j := FirstMatchIndex(mappings + more, t);
    assert (mappings + more)[i] == mappings[i];
    assert j.Some?;
  }
}
