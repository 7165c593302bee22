/**
 * `Operation1`: the two sample handlers the test configuration routes the
 * sub-operations of "operation2" to. `sub1` reads a list input of two
 * strings and an integer and succeeds with their concatenation; `sub2`
 * always fails with a timeout reason.
 */
module Operation1 {
  import opened Lang
  import opened InputEntity
  import opened ResultEntity

  const TIMEOUT_REASON: string := "通信超时!"

  /** The `(String)` cast: null and strings pass, anything else is a `ClassCastException`. */
  predicate CastsToString(v: Value) { v.Null? || v.Str? }

  /** The `(Integer)` cast. */
  predicate CastsToInteger(v: Value) { v.Null? || v.Int? }

  /** The result `sub1` builds from its three arguments: `a + b + c`, marked successful. */
  function Sub1Result(a: Value, b: Value, c: Value): ResultView
  {
    FRESH_RESULT.(result := Str(ValueText(a) + ValueText(b) + ValueText(c)), resultCode := Some(SUCCESS))
  }

  /**
   * What `sub1` does with an input: a null input, or one not tagged as a
   * list, fails on the first dereference; the three `get` calls and casts
   * fail in order on a short list or a wrongly typed element.
   */
  function Sub1Spec(input: Option<InputView>): (o: Outcome)
    ensures !o.ReturnedNull?
    ensures o.Threw? ==> o.exception in {NullPointerException, IndexOutOfBoundsException, ClassCastException}
    ensures o.Returned? ==> o.view.resultCode == Some(SUCCESS) && o.view.operation == None && o.view.errorReason == None
    ensures input.None? || input.value.form != LIST_TYPE || input.value.list.None? ==> o == Threw(NullPointerException)
  {
    if input.None? then Threw(NullPointerException)
    else
      var p := PayloadOf(input.value, LIST_TYPE);
      if !p.ListPayload? then Threw(NullPointerException)
      else
        var l := p.items;
        if |l| < 1 then Threw(IndexOutOfBoundsException)
        else if !CastsToString(l[0]) then Threw(ClassCastException)
        else if |l| < 2 then Threw(IndexOutOfBoundsException)
        else if !CastsToString(l[1]) then Threw(ClassCastException)
        else if |l| < 3 then Threw(IndexOutOfBoundsException)
        else if !CastsToInteger(l[2]) then Threw(ClassCastException)
        else Returned(Sub1Result(l[0], l[1], l[2]))
  }

  /**
   * `sub1` succeeds exactly on a list input of at least three elements whose
   * first two are strings (or null) and whose third is an integer (or null),
   * and its result is then the three printed one after the other; elements
   * past the third are ignored.
   */
  lemma Sub1Succeeds(l: seq<Value>)
    ensures Sub1Spec(Some(ListInput(Some(l)))).Returned?
        <==> |l| >= 3 && CastsToString(l[0]) && CastsToString(l[1]) && CastsToInteger(l[2])
    ensures Sub1Spec(Some(ListInput(Some(l)))).Returned? ==>
        Sub1Spec(Some(ListInput(Some(l)))).view.result == Str(ValueText(l[0]) + ValueText(l[1]) + ValueText(l[2]))
        && Sub1Spec(Some(ListInput(Some(l)))) == Sub1Spec(Some(ListInput(Some(l[..3]))))
  {
  }

  /** Two strings and an integer are concatenated with the integer in decimal. */
  lemma Sub1Concatenates(s: string, t: string, n: Int32, rest: seq<Value>)
    ensures Sub1Spec(Some(ListInput(Some([Str(s), Str(t), Int(n)] + rest))))
      == Returned(ResultView(None, None, Some(SUCCESS), Str(s + t + IntToDecimal(n))))
  {
  }

  /** The input of the single-operation test, `["a", "b", 1]`, gives "ab1". */
  lemma Sub1Example()
    ensures Sub1Spec(Some(ListInput(Some([Str("a"), Str("b"), Int(1)]))))
      == Returned(ResultView(None, None, Some(SUCCESS), Str("ab1")))
  {
    Sub1Concatenates("a", "b", 1, []);
    assert [Str("a"), Str("b"), Int(1)] + [] == [Str("a"), Str("b"), Int(1)];
    assert IntToDecimal(1) == [DigitChar(1)] == "1";
    assert "a" + "b" + "1" == "ab1";
  }

  /** What `sub2` does, whatever its input: a fresh result marked failed with the timeout reason. */
  function Sub2Spec(): (o: Outcome)
    ensures o.Returned? && o.view.resultCode == Some(ERROR) && o.view.errorReason == Some(TIMEOUT_REASON)
    ensures o.view.operation == None && o.view.result == Null
  {
    Returned(Mutate(FRESH_RESULT, ErrorCall(Some(TIMEOUT_REASON))))
  }

  /** `Operation1.sub1`, returning the object it builds. */
  method Sub1(input: Option<OperationInput>) returns (inv: Invocation)
    ensures Snapshot(inv) == Sub1Spec(ViewOf(input))
    ensures inv.InvReturned? ==> fresh(inv.obj)
  {
    if input.None? {
      return InvThrew(NullPointerException);
    }
    var p := input.value.GetInput(LIST_TYPE);
    if !p.ListPayload? {
      return InvThrew(NullPointerException);
    }
    var inputList := p.items;
    if |inputList| < 1 {
      return InvThrew(IndexOutOfBoundsException);
    }
    var a := inputList[0];
    if !CastsToString(a) {
      return InvThrew(ClassCastException);
    }
    if |inputList| < 2 {
      return InvThrew(IndexOutOfBoundsException);
    }
    var b := inputList[1];
    if !CastsToString(b) {
      return InvThrew(ClassCastException);
    }
    if |inputList| < 3 {
      return InvThrew(IndexOutOfBoundsException);
    }
    var c := inputList[2];
    if !CastsToInteger(c) {
      return InvThrew(ClassCastException);
    }
    var r := new OperationResult();
    r.SetResult(Str(ValueText(a) + ValueText(b) + ValueText(c)));
    r.Success();
    return InvReturned(r);
  }

  /** `Operation1.sub2`. */
  method Sub2(input: Option<OperationInput>) returns (inv: Invocation)
    ensures Snapshot(inv) == Sub2Spec()
    ensures inv.InvReturned? && fresh(inv.obj)
  {
    var r := new OperationResult();
    r.Error(Some(TIMEOUT_REASON));
    return InvReturned(r);
  }
}
