/**
 * `JsonRpcReader` of the trunk line: reads one JSON value at a time from a
 * stream and returns the request objects it holds, one for a single
 * request and every element, in order, for a batch array.
 */
module TrunkReader {
  import opened Common
  import opened JsonTree
  import opened Failures
  import opened RequestValidation
  import TrunkJsonUtils

  /** The element of a batch that the validating loop has reached after `k` elements, or the first failure. */
  function ValidatedPrefix(items: seq<Json>, k: nat): (r: Result<seq<Json>>)
    requires k <= |items|
    ensures r.Ok? ==> |r.value| == k && forall i :: 0 <= i < k ==> r.value[i] == items[i]
  {
    if k == 0 then Ok([])
    else
      var init := ValidatedPrefix(items, k - 1);
      if init.Err? then init
      else
        if IsValidRequest(items[k - 1]) then Ok(init.value + [items[k - 1]])
        else Err(JsonParseException(Some(Message(FirstViolation(Some(items[k - 1])).value))))
  }

  lemma {:induction false} ValidatedPrefixKeepsFailure(items: seq<Json>, k: nat, n: nat)
    requires k <= n <= |items| && ValidatedPrefix(items, k).Err?
    ensures ValidatedPrefix(items, n) == ValidatedPrefix(items, k)
    decreases n
  {
    if k < n {
      ValidatedPrefixKeepsFailure(items, k, n - 1);
      FailureStep(items, n);
    }
  }

  /** One more element does not change a failure. */
  lemma FailureStep(items: seq<Json>, n: nat)
    requires 0 < n <= |items| && ValidatedPrefix(items, n - 1).Err?
    ensures ValidatedPrefix(items, n) == ValidatedPrefix(items, n - 1)
  {
  }

  /**
   * The validating loop fails exactly when some element is no valid
   * request, and then with the violation of the first such element.
   */
  lemma {:induction false} ValidatedPrefixSpec(items: seq<Json>, k: nat)
    requires k <= |items|
    ensures ValidatedPrefix(items, k).Ok? <==> FirstInvalid(items[..k], 0).None?
    ensures ValidatedPrefix(items, k).Err? ==>
      ValidatedPrefix(items, k).thrown == JsonParseException(Some(Message(FirstViolation(Some(items[FirstInvalid(items[..k], 0).value])).value)))
  {
    if k > 0 {
      ValidatedPrefixSpec(items, k - 1);
      var shorter, longer := FirstInvalid(items[..k - 1], 0), FirstInvalid(items[..k], 0);
      if ValidatedPrefix(items, k - 1).Err? {
        FailureStep(items, k);
        var f := shorter.value;
        assert items[..k][f] == items[f];
        assert longer == Some(f) by {
          if longer.None? || longer.value < f {
          } else if longer.value > f {
          }
        }
      }
    }
  }

  /**
   * What `readNext` returns for the next value of the stream: a parse
   * failure wrapped in `JsonParseException`, every element of an array
   * validated, or any other value (null at the end of the input)
   * validated on its own.
   */
  function ReadNextSpec(next: Input): (r: Result<seq<Json>>)
    ensures next.Unparseable? ==> r == Err(JsonParseException(Some(Describe(JacksonParseError()))))
    ensures next.EndOfInput? ==> r == Err(JsonParseException(Some(Message(NotAnObject))))
    ensures next.Parsed? && next.node.JArr? ==> r == ValidatedPrefix(next.node.items, |next.node.items|)
    ensures next.Parsed? && !next.node.JArr? ==>
      (r.Ok? <==> IsValidRequest(next.node)) && (r.Ok? ==> r.value == [next.node])
  {
    match next
    case Unparseable => Err(JsonParseException(Some(Describe(JacksonParseError()))))
    case EndOfInput =>
      var checked := TrunkJsonUtils.ValidateRpcRequest(None);
      Err(checked.thrown)
    case Parsed(node) =>
      if node.JArr? then ValidatedPrefix(node.items, |node.items|)
      else
        var checked := TrunkJsonUtils.ValidateRpcRequest(Some(node));
        if checked.Err? then Err(checked.thrown) else Ok([checked.value])
  }

  /** A batch is returned whole and in order when all of its elements are valid requests, and refused otherwise. */
  lemma BatchFlattened(items: seq<Json>)
    ensures ReadNextSpec(Parsed(JArr(items))).Ok? <==> forall i :: 0 <= i < |items| ==> IsValidRequest(items[i])
    ensures ReadNextSpec(Parsed(JArr(items))).Ok? ==> ReadNextSpec(Parsed(JArr(items))).value == items
  {
    ValidatedPrefixSpec(items, |items|);
  }

  /** A batch with an invalid element is refused with the violation of the first one. */
  lemma BatchRefusedAtFirstInvalid(items: seq<Json>, bad: nat)
    requires bad < |items| && !IsValidRequest(items[bad])
    requires forall i :: 0 <= i < bad ==> IsValidRequest(items[i])
    ensures ReadNextSpec(Parsed(JArr(items))) == Err(JsonParseException(Some(Message(FirstViolation(Some(items[bad])).value))))
  {
    ValidatedPrefixSpec(items, |items|);
    assert items[..|items|] == items;
    var first := FirstInvalid(items, 0).value;
    assert !(first < bad) && !(bad < first);
  }

  lemma ValidatedStep(items: seq<Json>, i: nat, ret: seq<Json>)
    requires i < |items| && ValidatedPrefix(items, i) == Ok(ret)
    ensures ValidatedPrefix(items, i + 1) ==
      match TrunkJsonUtils.ValidateRpcRequest(Some(items[i]))
      case Ok(node) => Ok(ret + [node])
      case Err(thrown) => Err(thrown)
  {
  }

  /** The loop over the elements of a batch: each is validated and added to the list in order. */
  method ValidateBatch(jsonArray: seq<Json>) returns (r: Result<seq<Json>>)
    ensures r == ValidatedPrefix(jsonArray, |jsonArray|)
  {
    var ret: seq<Json> := [];
    for i := 0 to |jsonArray|
      invariant ValidatedPrefix(jsonArray, i) == Ok(ret)
    {
      var checked := TrunkJsonUtils.ValidateRpcRequest(Some(jsonArray[i]));
      ValidatedStep(jsonArray, i, ret);
      if checked.Err? {
        ValidatedPrefixKeepsFailure(jsonArray, i + 1, |jsonArray|);
        return Err(checked.thrown);
      }
      ret := ret + [checked.value];
    }
    return Ok(ret);
  }

  /** Reads from a stream of JSON values; `pending` stands for what the parser has not yet read. */
  class JsonRpcReader {
    var pending: seq<Input>

    constructor (input: seq<Input>)
      ensures pending == input
    {
      pending := input;
    }

    /** The value the parser reads next: the end of the input once nothing is left. */
    function Next(): Input
      reads this
    {
      if pending == [] then EndOfInput else pending[0]
    }

    method ReadNext() returns (r: Result<seq<Json>>)
      modifies this
      ensures r == ReadNextSpec(old(Next()))
      ensures pending == if old(pending) == [] then [] else old(pending)[1..]
    {
      var node := Next();
      if pending != [] {
        pending := pending[1..];
      }
      match node
      case Unparseable =>
        return Err(JsonParseException(Some(Describe(JacksonParseError()))));
      case EndOfInput =>
        var checked := TrunkJsonUtils.ValidateRpcRequest(None);
        return Err(checked.thrown);
      case Parsed(tree) =>
        if tree.JArr? {
          r := ValidateBatch(tree.items);
        } else {
          var checked := TrunkJsonUtils.ValidateRpcRequest(Some(tree));
          if checked.Err? {
            return Err(checked.thrown);
          }
          return Ok([checked.value]);
        }
    }
  }
}
