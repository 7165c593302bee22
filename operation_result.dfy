/**
 * `OperationResult`: the mutable record one sub-operation hands back — the
 * operation it belongs to, a failure reason, a result code and a result
 * object. Its result code is written only by `error` and `success`, so it is
 * always null, "error" or "success".
 */
module ResultEntity {
  import opened Lang

  /** The standard error code. */
  const ERROR: string := "error"

  /** The standard success code. */
  const SUCCESS: string := "success"

  /** The four fields of an `OperationResult`, as a value. */
  datatype ResultView = ResultView(
    operation: Option<string>,
    errorReason: Option<string>,
    resultCode: Option<string>,
    result: Value)

  /** What `new OperationResult()` holds: every field null. */
  const FRESH_RESULT: ResultView := ResultView(None, None, None, Null)

  /** The result codes an `OperationResult` can hold. */
  predicate ValidCode(code: Option<string>)
  {
    code == None || code == Some(ERROR) || code == Some(SUCCESS)
  }

  /** A call of one of the public mutators of `OperationResult`. */
  datatype Mutator =
    | SetOperationCall(operation: Option<string>)
    | ErrorCall(reason: Option<string>)
    | SuccessCall
    | SetResultCall(result: Value)

  /** The fields after one mutator call. */
  function Mutate(v: ResultView, m: Mutator): ResultView
  {
    match m
    case SetOperationCall(op) => v.(operation := op)
    case ErrorCall(r) => v.(resultCode := Some(ERROR), errorReason := r)
    case SuccessCall => v.(resultCode := Some(SUCCESS))
    case SetResultCall(x) => v.(result := x)
  }

  /** The fields after a sequence of mutator calls, in order. */
  function MutateAll(v: ResultView, ms: seq<Mutator>): ResultView
    decreases |ms|
  {
    if ms == [] then v else MutateAll(Mutate(v, ms[0]), ms[1..])
  }

  /** The code set by the last `error` or `success` call in `ms`, or `code` if there is none. */
  function LastCode(code: Option<string>, ms: seq<Mutator>): Option<string>
  {
    if ms == [] then code
    else if ms[|ms| - 1].ErrorCall? then Some(ERROR)
    else if ms[|ms| - 1].SuccessCall? then Some(SUCCESS)
    else LastCode(code, ms[..|ms| - 1])
  }

  /**
   * Whatever mutators are called, the result code is the one the last
   * `error` or `success` call wrote; in particular it stays one of null,
   * "error" and "success".
   */
  lemma {:induction false} MutateAllCode(v: ResultView, ms: seq<Mutator>)
    ensures MutateAll(v, ms).resultCode == LastCode(v.resultCode, ms)
    ensures ValidCode(v.resultCode) ==> ValidCode(MutateAll(v, ms).resultCode)
  {
    if ms != [] {
      var last := ms[|ms| - 1];
      var init := ms[..|ms| - 1];
      MutateAllSplit(v, init, last);
      assert init + [last] == ms;
      MutateAllCode(v, init);
    }
  }

  /** Calling the mutators one after the other is calling the last one on the state the others leave. */
  lemma {:induction false} MutateAllSplit(v: ResultView, ms: seq<Mutator>, m: Mutator)
    ensures MutateAll(v, ms + [m]) == Mutate(MutateAll(v, ms), m)
    decreases |ms|
  {
    if ms == [] {
      assert [] + [m] == [m];
    } else {
      assert (ms + [m])[1..] == ms[1..] + [m];
      MutateAllSplit(Mutate(v, ms[0]), ms[1..], m);
    }
  }

  const RESULT_TEXT_PREFIX: string := "OperationResult [operation="

  /** `OperationResult.toString()`. */
  function ResultText(v: ResultView): string
  {
    RESULT_TEXT_PREFIX + OptionText(v.operation)
    + ", errorReason=" + OptionText(v.errorReason)
    + ", resultCode=" + OptionText(v.resultCode)
    + ", result=" + ValueText(v.result) + " ]"
  }

  /** The text starts with the operation, right after its fixed opening, and ends with " ]". */
  lemma ResultTextParts(v: ResultView)
    ensures var r := ResultText(v);
      && |r| > |RESULT_TEXT_PREFIX| + |OptionText(v.operation)| + 2
      && r[..|RESULT_TEXT_PREFIX|] == RESULT_TEXT_PREFIX && r[|r| - 2..] == " ]"
      && r[|RESULT_TEXT_PREFIX|..|RESULT_TEXT_PREFIX| + |OptionText(v.operation)|] == OptionText(v.operation)
  {
  }

  /** A new result, with all four fields null, prints every field as "null". */
  lemma NewResultText()
    ensures ResultText(ResultView(None, None, None, Null))
            == "OperationResult [operation=null, errorReason=null, resultCode=null, result=null ]"
  {
    assert OptionText(None) == "null" && ValueText(Null) == "null";
    var t := RESULT_TEXT_PREFIX + "null";
    assert t == "OperationResult [operation=null";
    t := t + ", errorReason=" + "null";
    assert t == "OperationResult [operation=null, errorReason=null";
    t := t + ", resultCode=" + "null";
    assert t == "OperationResult [operation=null, errorReason=null, resultCode=null";
    t := t + ", result=" + "null" + " ]";
    assert t == "OperationResult [operation=null, errorReason=null, resultCode=null, result=null ]";
  }

  class OperationResult {
    var operation: Option<string>
    var errorReason: Option<string>
    var resultCode: Option<string>
    var result: Value

    function View(): ResultView
      reads this
    {
      ResultView(operation, errorReason, resultCode, result)
    }

    ghost predicate Valid()
      reads this
    {
      ValidCode(resultCode)
    }

    constructor ()
      ensures View() == FRESH_RESULT && Valid()
    {
      operation, errorReason, resultCode, result := None, None, None, Null;
    }

    function GetOperation(): Option<string>
      reads this
    {
      operation
    }

    function GetErrorReason(): Option<string>
      reads this
    {
      errorReason
    }

    function GetResultCode(): Option<string>
      reads this
    {
      resultCode
    }

    function GetResult(): Value
      reads this
    {
      result
    }

    /** Changes the operation and nothing else. */
    method SetOperation(operation: Option<string>)
      modifies this
      ensures View() == old(View()).(operation := operation)
      ensures GetOperation() == operation
      ensures Valid() <==> old(Valid())
    {
      this.operation := operation;
    }

    /** Marks the result as failed with the given reason; operation and result stay. */
    method Error(errorReason: Option<string>)
      modifies this
      ensures View() == old(View()).(resultCode := Some(ERROR), errorReason := errorReason)
      ensures GetResultCode() == Some(ERROR) && GetErrorReason() == errorReason
      ensures Valid()
    {
      this.resultCode := Some(ERROR);
      this.errorReason := errorReason;
    }

    /** Marks the result as successful; a reason set earlier is kept. */
    method Success()
      modifies this
      ensures View() == old(View()).(resultCode := Some(SUCCESS))
      ensures GetResultCode() == Some(SUCCESS)
      ensures Valid()
    {
      this.resultCode := Some(SUCCESS);
    }

    /** Changes the result object and nothing else. */
    method SetResult(result: Value)
      modifies this
      ensures View() == old(View()).(result := result)
      ensures GetResult() == result
      ensures Valid() <==> old(Valid())
    {
      this.result := result;
    }

    /** Applies the mutator calls of `ms` in order. */
    method ApplyAll(ms: seq<Mutator>)
      modifies this
      ensures View() == MutateAll(old(View()), ms)
    {
      ghost var start := View();
      for i := 0 to |ms|
        invariant MutateAll(start, ms) == MutateAll(View(), ms[i..])
      {
        assert ms[i..][1..] == ms[i + 1..];
        match ms[i]
        case SetOperationCall(op) => SetOperation(op);
        case ErrorCall(r) => Error(r);
        case SuccessCall => Success();
        case SetResultCall(x) => SetResult(x);
      }
    }
  }

  /**
   * What invoking a handler comes to: it threw an exception, returned null,
   * returned a result, or an `Error` (not an `Exception`) left the call,
   * which happens when the handler's class fails to initialise.
   */
  datatype Outcome = Threw(exception: Exception) | ReturnedNull | Returned(view: ResultView) | ErrorRaised

  /** The same, holding the returned object itself. */
  datatype Invocation = InvThrew(exception: Exception) | InvNull | InvReturned(obj: OperationResult) | InvError

  /** The value of an invocation's outcome in the current state. */
  function Snapshot(i: Invocation): Outcome
    reads if i.InvReturned? then {i.obj} else {}
  {
    match i
    case InvThrew(e) => Threw(e)
    case InvNull => ReturnedNull
    case InvReturned(r) => Returned(r.View())
    case InvError => ErrorRaised
  }
}
