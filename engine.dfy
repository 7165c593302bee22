/**
 * `IQuickQuarantine`: the three ways a caller runs sub-operations. Each one
 * gets the top-level operation's pool (and, for the first two, its routing
 * table), submits one worker task per sub-operation, waits on a latch sized
 * to the number of tasks, and returns the results the tasks appended.
 */
module Engine {
  import opened Lang
  import opened InputEntity
  import opened ResultEntity
  import opened Reflection
  import opened ThreadPool
  import Security
  import Operation1
  import Config

  /** `map.get(operation)` on the routing table. */
  function Lookup(routing: map<string, string>, operation: string): (r: Option<string>)
    ensures r.Some? <==> operation in routing
    ensures r.Some? ==> r.value == routing[operation]
  {
    if operation in routing then Some(routing[operation]) else None
  }

  /** Objects `rs` are pairwise different. */
  ghost predicate Distinct(rs: seq<OperationResult>)
  {
    forall j, k | 0 <= j < k < |rs| :: rs[j] != rs[k]
  }

  /** The inputs the first tasks were given, as objects whose fields a reader may look at. */
  function InputObjects(ins: seq<Option<OperationInput>>): set<OperationInput>
  {
    set k | 0 <= k < |ins| && ins[k].Some? :: ins[k].value
  }

  /**
   * How a request ends: it returns a value or throws (`Done`), or it
   * blocks for ever in `countDownLatch.await()` because a task never
   * counted the latch down.
   */
  datatype Reply<T> = Done(result: Result<T>) | Blocked

  /**
   * The results list holds, in order and as different objects, the result
   * of running `ops[k]`, routed through `routing`, on `ins[k]`.
   */
  ghost predicate Recorded(items: seq<OperationResult>, table: ClassTable, routing: map<string, string>,
                           ops: seq<string>, ins: seq<Option<OperationInput>>)
    reads set k | 0 <= k < |items| :: items[k]
    reads InputObjects(ins)
  {
    && |items| == |ops| == |ins|
    && Distinct(items)
    && forall k | 0 <= k < |items| :: RunSpec(table, ops[k], Lookup(routing, ops[k]), ViewOf(ins[k])) == Some(items[k].View())
  }

  /** Every task for `ops[k]`, routed through `routing`, on `ins[k]` records a result. */
  ghost predicate AllRecord(table: ClassTable, routing: map<string, string>, ops: seq<string>, ins: seq<Option<OperationInput>>)
    requires |ops| == |ins|
    reads InputObjects(ins)
  {
    forall k | 0 <= k < |ops| :: RunSpec(table, ops[k], Lookup(routing, ops[k]), ViewOf(ins[k])).Some?
  }

  /**
   * The tasks record a result each exactly when no routed handler id
   * names a class that fails to initialise.
   */
  lemma AllRecordIffInitialise(table: ClassTable, routing: map<string, string>, ops: seq<string>, ins: seq<Option<OperationInput>>)
    requires |ops| == |ins|
    ensures AllRecord(table, routing, ops, ins) <==>
      forall k | 0 <= k < |ops| && ops[k] in routing ::
        var c := Security.ClassNameOf(routing[ops[k]]);
        c !in table || table[c].Initialised?
  {
    if !AllRecord(table, routing, ops, ins) {
      var k :| 0 <= k < |ops| && RunSpec(table, ops[k], Lookup(routing, ops[k]), ViewOf(ins[k])).None?;
      RunRecordsNothing(table, ops[k], Lookup(routing, ops[k]), ViewOf(ins[k]));
    }
    forall k | 0 <= k < |ops| && ops[k] in routing
      ensures AllRecord(table, routing, ops, ins) ==>
        var c := Security.ClassNameOf(routing[ops[k]]);
        c !in table || table[c].Initialised?
    {
      RunRecordsNothing(table, ops[k], Lookup(routing, ops[k]), ViewOf(ins[k]));
    }
  }

  /** One more task keeps `AllRecord` exactly when it records a result too. */
  lemma AllRecordStep(table: ClassTable, routing: map<string, string>, ops: seq<string>, ins: seq<Option<OperationInput>>,
                      op: string, x: Option<OperationInput>)
    requires |ops| == |ins|
    ensures AllRecord(table, routing, ops + [op], ins + [x]) <==>
      AllRecord(table, routing, ops, ins) && RunSpec(table, op, Lookup(routing, op), ViewOf(x)).Some?
  {
    assert (ops + [op])[|ops|] == op && (ins + [x])[|ops|] == x;
    forall k | 0 <= k < |ops|
      ensures (ops + [op])[k] == ops[k] && (ins + [x])[k] == ins[k]
    {
    }
  }

  /** One more result, different from the others and holding the run of `op` on `x`, keeps `Recorded`. */
  lemma RecordedExtend(items: seq<OperationResult>, table: ClassTable, routing: map<string, string>,
                       ops: seq<string>, ins: seq<Option<OperationInput>>, op: string, x: Option<OperationInput>,
                       o: OperationResult)
    requires Recorded(items, table, routing, ops, ins)
    requires o !in items
    requires RunSpec(table, op, Lookup(routing, op), ViewOf(x)) == Some(o.View())
    ensures Recorded(items + [o], table, routing, ops + [op], ins + [x])
  {
    var items' := items + [o];
    forall j, k | 0 <= j < k < |items'|
      ensures items'[j] != items'[k]
    {
      assert items'[j] == items[j];
      if k < |items| {
        assert items'[k] == items[k];
      }
    }
    forall k | 0 <= k < |items'|
      ensures RunSpec(table, (ops + [op])[k], Lookup(routing, (ops + [op])[k]), ViewOf((ins + [x])[k])) == Some(items'[k].View())
    {
      if k < |ops| {
        assert items'[k] == items[k];
      }
    }
  }

  /**
   * Submits a task whose handler id comes from `routing`. A task that
   * records a result appends it and counts the latch down; when the earlier
   * tasks for `ops` on `ins` have all recorded theirs (`done`), the list
   * then records `ops + [task.operation]`. A task that records nothing
   * changes nothing.
   */
  method Submit(threadPool: ThreadPoolExecutor, task: OperationThread, routing: map<string, string>,
                ghost ops: seq<string>, ghost ins: seq<Option<OperationInput>>, ghost done: bool)
    requires task.classMethod == Lookup(routing, task.operation)
    requires done ==> Recorded(task.operationResult.items, task.table, routing, ops, ins)
    modifies task.operationResult, task.countDownLatch
    ensures task.Expected().None? ==>
      task.operationResult.items == old(task.operationResult.items) && task.countDownLatch.count == old(task.countDownLatch.count)
    ensures task.Expected().Some? ==>
      && |task.operationResult.items| == |old(task.operationResult.items)| + 1
      && task.operationResult.items == old(task.operationResult.items) + [task.operationResult.items[|old(task.operationResult.items)|]]
      && fresh(task.operationResult.items[|old(task.operationResult.items)|])
      && task.countDownLatch.count == if old(task.countDownLatch.count) == 0 then 0 else old(task.countDownLatch.count) - 1
    ensures done && task.Expected().Some? ==>
      Recorded(task.operationResult.items, task.table, routing, ops + [task.operation], ins + [task.input])
  {
    ghost var before := task.operationResult.items;
    threadPool.Execute(task);
    if task.Expected().Some? {
      AppendedOne(before, task.operationResult.items);
      if done {
        RecordedExtend(before, task.table, routing, ops, ins, task.operation, task.input, task.operationResult.items[|before|]);
      }
    }
  }

  /** A list one longer than `before` that starts with `before` is `before` and its last element. */
  lemma AppendedOne<T>(before: seq<T>, items: seq<T>)
    requires |items| == |before| + 1 && items[..|before|] == before
    ensures items == before + [items[|before|]]
  {
  }

  /**
   * `doAllOfMinimumOperation`: runs `allMinimumOperation[i]` on `input[i]`
   * through the routing table of `ofMaximumOperation`. The results come
   * back one per sub-operation, in order; a sub-operation the table does
   * not route is recorded as failed. Fewer inputs than sub-operations fails
   * once the inputs run out, and a task that records nothing leaves the
   * request waiting for ever.
   */
  method DoAllOfMinimumOperation(registry: OperationThreadPool, factory: Config.Factory, table: ClassTable,
                                 allMinimumOperation: seq<string>, ofMaximumOperation: string,
                                 input: seq<Option<OperationInput>>)
    returns (r: Reply<seq<OperationResult>>)
    modifies registry
    ensures RegistryStep(old(registry.threadPoolMap), registry.threadPoolMap, ofMaximumOperation,
                         factory.GetThreadPoolOperationMap(ofMaximumOperation))
    ensures ofMaximumOperation !in old(registry.threadPoolMap) && ofMaximumOperation in registry.threadPoolMap ==>
      fresh(registry.threadPoolMap[ofMaximumOperation])
    ensures var a := AcquireSpec(old(registry.threadPoolMap).Keys, ofMaximumOperation,
                                 factory.GetThreadPoolOperationMap(ofMaximumOperation), true);
      && (a.Err? ==> r == Done(Err(a.error)))
      && (a.Ok? ==> ofMaximumOperation in registry.threadPoolMap)
      && (a.Ok? && |input| < |allMinimumOperation| ==> r == Done(Err(IndexOutOfBoundsException)))
      && (a.Ok? && |input| >= |allMinimumOperation| ==>
            var ins := input[..|allMinimumOperation|];
            && (AllRecord(table, a.value.value, allMinimumOperation, ins) ==>
                  && r.Done? && r.result.Ok? && (forall k | 0 <= k < |r.result.value| :: fresh(r.result.value[k]))
                  && Recorded(r.result.value, table, a.value.value, allMinimumOperation, ins))
            && (!AllRecord(table, a.value.value, allMinimumOperation, ins) ==> r == Blocked))
  {
    var operationList := registry.GetOperationList(factory, ofMaximumOperation, true);
    if operationList.Err? {
      return Done(Err(operationList.error));
    }
    var threadPool := operationList.value[0].pool;
    var routing := operationList.value[1].routing;
    r := RunAll(threadPool, table, routing, allMinimumOperation, input);
  }

  /**
   * `doMaximumOperation`: runs every routed sub-operation of
   * `maximumOperation`, the `i`-th in the routing table's iteration order
   * (`order`) on `input[i]`.
   */
  method DoMaximumOperation(registry: OperationThreadPool, factory: Config.Factory, table: ClassTable,
                            maximumOperation: string, input: seq<Option<OperationInput>>)
    returns (r: Reply<seq<OperationResult>>, order: seq<string>)
    modifies registry
    ensures RegistryStep(old(registry.threadPoolMap), registry.threadPoolMap, maximumOperation,
                         factory.GetThreadPoolOperationMap(maximumOperation))
    ensures maximumOperation !in old(registry.threadPoolMap) && maximumOperation in registry.threadPoolMap ==>
      fresh(registry.threadPoolMap[maximumOperation])
    ensures var a := AcquireSpec(old(registry.threadPoolMap).Keys, maximumOperation,
                                 factory.GetThreadPoolOperationMap(maximumOperation), true);
      && (a.Err? ==> r == Done(Err(a.error)))
      && (a.Ok? ==> maximumOperation in registry.threadPoolMap
                    && IsEnumeration(order, a.value.value.Keys) && |order| == |a.value.value|)
      && (a.Ok? && |input| < |a.value.value| ==> r == Done(Err(IndexOutOfBoundsException)))
      && (a.Ok? && |input| >= |a.value.value| ==>
            var ins := input[..|a.value.value|];
            && (AllRecord(table, a.value.value, order, ins) ==>
                  && r.Done? && r.result.Ok? && (forall k | 0 <= k < |r.result.value| :: fresh(r.result.value[k]))
                  && Recorded(r.result.value, table, a.value.value, order, ins))
            && (!AllRecord(table, a.value.value, order, ins) ==> r == Blocked))
  {
    var operationList := registry.GetOperationList(factory, maximumOperation, true);
    if operationList.Err? {
      return Done(Err(operationList.error)), [];
    }
    var threadPool := operationList.value[0].pool;
    var routing := operationList.value[1].routing;
    order := EntryOrder(routing);
    r := RunAll(threadPool, table, routing, order, input);
  }

  /** The order in which the routing table's entry set iterates: every routed sub-operation once. */
  method EntryOrder(routing: map<string, string>) returns (order: seq<string>)
    ensures IsEnumeration(order, routing.Keys) && |order| == |routing|
  {
    order := [];
    var remaining := routing.Keys;
    while remaining != {}
      invariant remaining <= routing.Keys && |order| + |remaining| == |routing|
      invariant forall k | 0 <= k < |order| :: order[k] in routing && order[k] !in remaining
      invariant forall j, k | 0 <= j < k < |order| :: order[j] != order[k]
      invariant forall x | x in routing && x !in remaining :: x in order
      decreases |remaining|
    {
      var key :| key in remaining;
      order := order + [key];
      remaining := remaining - {key};
    }
  }

  lemma PrefixStep<T>(s: seq<T>, i: nat)
    requires i < |s|
    ensures s[..i] + [s[i]] == s[..i + 1]
  {
  }

  /**
   * Step `i` of the submission loop: a task for `ops[i]` on `input[i]`,
   * sharing the results list and the latch. `done` says whether every
   * earlier task recorded a result; the latch stays at the number of tasks
   * less the number of results.
   */
  method SubmitAt(threadPool: ThreadPoolExecutor, table: ClassTable, routing: map<string, string>,
                  ops: seq<string>, input: seq<Option<OperationInput>>,
                  operationResult: Vector<OperationResult>, countDownLatch: CountDownLatch, i: nat, ghost done: bool)
    returns (ghost done': bool)
    requires i < |ops| && i < |input|
    requires countDownLatch.count == |ops| - |operationResult.items|
    requires done <==> AllRecord(table, routing, ops[..i], input[..i])
    requires done ==> Recorded(operationResult.items, table, routing, ops[..i], input[..i])
    requires !done ==> |operationResult.items| < i
    modifies operationResult, countDownLatch
    ensures operationResult.items == old(operationResult.items) ||
      (|operationResult.items| == |old(operationResult.items)| + 1
       && operationResult.items == old(operationResult.items) + [operationResult.items[|old(operationResult.items)|]]
       && fresh(operationResult.items[|old(operationResult.items)|]))
    ensures countDownLatch.count == |ops| - |operationResult.items|
    ensures done' <==> AllRecord(table, routing, ops[..i + 1], input[..i + 1])
    ensures done' ==> Recorded(operationResult.items, table, routing, ops[..i + 1], input[..i + 1])
    ensures !done' ==> |operationResult.items| < i + 1
  {
    var operation := ops[i];
    var task := new OperationThread(operation, Lookup(routing, operation), input[i], operationResult, countDownLatch, table);
    ghost var before := operationResult.items;
    assert done ==> Recorded(before, table, routing, ops[..i], input[..i]);
    Submit(threadPool, task, routing, ops[..i], input[..i], done);
    PrefixStep(ops, i);
    PrefixStep(input, i);
    AllRecordStep(table, routing, ops[..i], input[..i], operation, input[i]);
    done' := done && task.Expected().Some?;
    if task.Expected().Some? {
      assert |operationResult.items| == |before| + 1;
    } else {
      assert operationResult.items == before;
    }
  }

  /**
   * The submission loop of `doAllOfMinimumOperation` and `doMaximumOperation`:
   * one task per sub-operation `ops[i]`, with the handler id the routing
   * table gives it and input `input[i]`, all sharing one results list and
   * one latch sized to `|ops|`, then the wait on the latch, which ends only
   * if every task counted it down.
   */
  method RunAll(threadPool: ThreadPoolExecutor, table: ClassTable, routing: map<string, string>,
                ops: seq<string>, input: seq<Option<OperationInput>>)
    returns (r: Reply<seq<OperationResult>>)
    ensures |input| < |ops| ==> r == Done(Err(IndexOutOfBoundsException))
    ensures |input| >= |ops| && AllRecord(table, routing, ops, input[..|ops|]) ==>
      && r.Done? && r.result.Ok? && (forall k | 0 <= k < |r.result.value| :: fresh(r.result.value[k]))
      && Recorded(r.result.value, table, routing, ops, input[..|ops|])
    ensures |input| >= |ops| && !AllRecord(table, routing, ops, input[..|ops|]) ==> r == Blocked
  {
    // `input.get(i)` throws once the inputs run out; the tasks run before
    // that touch only this call's own list and latch, so the outcome is the
    // exception whenever there are fewer inputs than sub-operations
    if |input| < |ops| {
      return Done(Err(IndexOutOfBoundsException));
    }
    var operationResult := new Vector<OperationResult>();
    var threadNum := |ops|;
    var countDownLatch := new CountDownLatch(threadNum);
    ghost var done := true;
    for i := 0 to threadNum
      invariant fresh(operationResult) && fresh(countDownLatch)
      invariant countDownLatch.count == threadNum - |operationResult.items|
      invariant forall k | 0 <= k < |operationResult.items| :: fresh(operationResult.items[k])
      invariant done <==> AllRecord(table, routing, ops[..i], input[..i])
      invariant done ==> Recorded(operationResult.items, table, routing, ops[..i], input[..i])
      invariant !done ==> |operationResult.items| < i
    {
      ghost var before := operationResult.items;
      done := SubmitAt(threadPool, table, routing, ops, input, operationResult, countDownLatch, i, done);
      if operationResult.items != before {
        forall k | 0 <= k < |operationResult.items|
          ensures fresh(operationResult.items[k])
        {
          if k < |before| {
            assert operationResult.items[k] == before[k];
          }
        }
      }
    }
    var released := countDownLatch.Await();
    assert ops[..threadNum] == ops;
    if !released {
      return Blocked;
    }
    return Done(Ok(operationResult.items));
  }

  /**
   * `doMinimumOperation`: runs one sub-operation on the pool of
   * `ofMaximumOperation` with the handler id the caller names, bypassing
   * the routing table, and returns its one result, or waits for ever when
   * the task records none.
   */
  method DoMinimumOperation(registry: OperationThreadPool, factory: Config.Factory, table: ClassTable,
                            minimumOperation: string, classMethod: Option<string>, ofMaximumOperation: string,
                            input: Option<OperationInput>)
    returns (r: Reply<OperationResult>)
    modifies registry
    ensures RegistryStep(old(registry.threadPoolMap), registry.threadPoolMap, ofMaximumOperation,
                         factory.GetThreadPoolOperationMap(ofMaximumOperation))
    ensures ofMaximumOperation !in old(registry.threadPoolMap) && ofMaximumOperation in registry.threadPoolMap ==>
      fresh(registry.threadPoolMap[ofMaximumOperation])
    ensures var a := AcquireSpec(old(registry.threadPoolMap).Keys, ofMaximumOperation,
                                 factory.GetThreadPoolOperationMap(ofMaximumOperation), false);
      var run := RunSpec(table, minimumOperation, classMethod, ViewOf(input));
      && (a.Err? ==> r == Done(Err(a.error)))
      && (a.Ok? ==> ofMaximumOperation in registry.threadPoolMap)
      && (a.Ok? && run.Some? ==> r.Done? && r.result.Ok? && fresh(r.result.value) && r.result.value.View() == run.value)
      && (a.Ok? && run.None? ==> r == Blocked)
  {
    var operationResult := new Vector<OperationResult>();
    var operationList := registry.GetOperationList(factory, ofMaximumOperation, false);
    if operationList.Err? {
      return Done(Err(operationList.error));
    }
    var threadPool := operationList.value[0].pool;
    var countDownLatch := new CountDownLatch(1);
    var task := new OperationThread(minimumOperation, classMethod, input, operationResult, countDownLatch, table);
    threadPool.Execute(task);
    var released := countDownLatch.Await();
    if !released {
      return Blocked;
    }
    return Done(Ok(operationResult.items[0]));
  }

  // ---------------------------------------------------------------------------
  // The sample handlers end to end
  // ---------------------------------------------------------------------------

  const OPERATION1_CLASS: string := "com.github.quickquarantine.test.Operation1"

  /** A class path on which `Operation1` declares its two static handlers. */
  function Operation1Table(): ClassTable
  {
    map[OPERATION1_CLASS := Initialised(map["sub1" := Static(Sub1Body), "sub2" := Static(Sub2Body)])]
  }

  /** Through the worker, `sub1` on `["a", "b", 1]` is recorded as a success holding "ab1". */
  lemma Sub1EndToEnd(operation: string)
    ensures RunSpec(Operation1Table(), operation, Some(OPERATION1_CLASS + "." + "sub1"),
                    Some(ListInput(Some([Str("a"), Str("b"), Int(1)]))))
      == Some(ResultView(Some(operation), None, Some(SUCCESS), Str("ab1")))
  {
    assert Security.IsIdentifier("sub1");
    RunHandlerId(Operation1Table(), operation, OPERATION1_CLASS, "sub1", Some(ListInput(Some([Str("a"), Str("b"), Int(1)]))));
    Operation1.Sub1Example();
  }

  /** `sub2` is recorded as a failure with the timeout reason, whatever its input. */
  lemma Sub2EndToEnd(operation: string, input: Option<InputView>)
    ensures RunSpec(Operation1Table(), operation, Some(OPERATION1_CLASS + "." + "sub2"), input)
      == Some(ResultView(Some(operation), Some(Operation1.TIMEOUT_REASON), Some(ERROR), Null))
  {
    assert Security.IsIdentifier("sub2");
    RunHandlerId(Operation1Table(), operation, OPERATION1_CLASS, "sub2", input);
    var declared := Operation1Table()[OPERATION1_CLASS].methods;
    assert "sub2" in declared && declared["sub2"] == Static(Sub2Body);
    assert BodyOutcome(Sub2Body, input) == Operation1.Sub2Spec();
    assert InvokeSpec(Operation1Table(), OPERATION1_CLASS, Some("sub2"), input) == Operation1.Sub2Spec();
  }

  /**
   * `sub1` on an object input, which has no list to read, is recorded as a
   * failure whose reason names the reflective call's exception.
   */
  lemma Sub1ObjectInputFails(operation: string, o: Value)
    ensures RunSpec(Operation1Table(), operation, Some(OPERATION1_CLASS + "." + "sub1"), Some(ObjectInput(o)))
      == Some(FailedView(operation, InvocationTargetException))
  {
    assert Security.IsIdentifier("sub1");
    RunHandlerId(Operation1Table(), operation, OPERATION1_CLASS, "sub1", Some(ObjectInput(o)));
  }

  /** A sub-operation the routing table does not name is recorded as failed on a null handler id. */
  lemma UnroutedFails(table: ClassTable, routing: map<string, string>, operation: string, input: Option<InputView>)
    requires operation !in routing
    ensures RunSpec(table, operation, Lookup(routing, operation), input)
      == Some(FailedView(operation, NullPointerException))
  {
  }

  /** A handler id `P.m` whose class `P` fails to initialise records nothing, whatever the input. */
  lemma InitFailureRecordsNothing(table: ClassTable, operation: string, p: string, m: string, input: Option<InputView>)
    requires Security.IsIdentifier(m) && p in table && table[p].InitFails?
    ensures RunSpec(table, operation, Some(p + "." + m), input) == None
  {
    RunHandlerId(table, operation, p, m, input);
  }
}
