/**
 * `OperationThreadPool`: one thread pool per top-level operation, created
 * on first use from the operation's configured parameters and shared by
 * every later request; the routing table from each sub-operation to its
 * handler id; the thread factory that numbers its threads; and the worker
 * task that runs one handler, turns anything that goes wrong into an
 * "error" result, stamps the result with its sub-operation, appends it to
 * the shared list and counts the latch down.
 *
 * The pool runs each task to completion on the submitting thread, so
 * results arrive in submission order; see README.md for what that leaves out.
 */
module ThreadPool {
  import opened Lang
  import opened InputEntity
  import opened ResultEntity
  import Security
  import opened Reflection
  import Config

  const UNKNOWN_OPERATION: string := "未知或匹配失败的业务!"
  const THREAD_NAME_PREFIX: string := "OperationThreadFactory-"
  const INCIDENT_PREFIX: string := "案发现场信息:[ "
  const RETURN_PREFIX: string := "返回业务:[ 业务="
  const RETURN_MIDDLE: string := ", 返回="
  const NULL_RETURN_SUFFIX: string := ", 返回=null ],返回结果为空!"
  const MISSING_CODE_SUFFIX: string := " ],缺少返回码!"

  // ---------------------------------------------------------------------------
  // The routing table of a top-level operation
  // ---------------------------------------------------------------------------

  /**
   * The map `setOperationList` builds: sub-operation `ops[i]` to handler
   * `handlers[i]`, for `i` in order, so a later duplicate overwrites an earlier one.
   */
  function Routing(ops: seq<string>, handlers: seq<string>): (r: map<string, string>)
    requires |ops| <= |handlers|
    ensures forall op | op in r :: op in ops && r[op] in handlers[..|ops|]
  {
    if ops == [] then map[] else Routing(ops[..|ops| - 1], handlers)[ops[|ops| - 1] := handlers[|ops| - 1]]
  }

  /**
   * `setOperationList`'s outcome: it fails when there are fewer handler ids
   * than sub-operations. Both lists come from `Arrays.asList`, whose `get`
   * indexes the array behind it.
   */
  function RoutingResult(ops: seq<string>, handlers: seq<string>): (r: Result<map<string, string>>)
    ensures r.Err? <==> |handlers| < |ops|
    ensures r.Err? ==> r.error == ArrayIndexOutOfBoundsException
  {
    if |handlers| < |ops| then Err(ArrayIndexOutOfBoundsException) else Ok(Routing(ops, handlers))
  }

  /** The routed sub-operations are exactly the configured ones, so there are at most `|ops|` of them. */
  lemma {:induction false} RoutingKeys(ops: seq<string>, handlers: seq<string>)
    requires |ops| <= |handlers|
    ensures Routing(ops, handlers).Keys == set x | x in ops
    ensures |Routing(ops, handlers)| <= |ops|
  {
    if ops != [] {
      var init := ops[..|ops| - 1];
      RoutingKeys(init, handlers);
      assert ops == init + [ops[|ops| - 1]];
      assert (set x | x in ops) == (set x | x in init) + {ops[|ops| - 1]};
    }
  }

  /** A sub-operation is routed to the handler at its last position in the list. */
  lemma {:induction false} RoutingLastWins(ops: seq<string>, handlers: seq<string>, i: nat)
    requires |ops| <= |handlers| && i < |ops|
    requires forall j | i < j < |ops| :: ops[j] != ops[i]
    ensures ops[i] in Routing(ops, handlers) && Routing(ops, handlers)[ops[i]] == handlers[i]
  {
    if i < |ops| - 1 {
      var init := ops[..|ops| - 1];
      RoutingLastWins(init, handlers, i);
    }
  }

  /** Handler ids past the number of sub-operations are never read. */
  lemma {:induction false} RoutingIgnoresExtra(ops: seq<string>, handlers: seq<string>, extra: seq<string>)
    requires |ops| <= |handlers|
    ensures Routing(ops, handlers + extra) == Routing(ops, handlers)
  {
    if ops != [] {
      RoutingIgnoresExtra(ops[..|ops| - 1], handlers, extra);
      assert (handlers + extra)[|ops| - 1] == handlers[|ops| - 1];
    }
  }

  /** `setOperationList`: the map it appends to the operation list, or the exception it throws. */
  method SetOperationList(spec: Config.PoolSpec) returns (r: Result<map<string, string>>)
    ensures r == RoutingResult(spec.seriesOperation, spec.seriesClassMethod)
  {
    var seriesClassMethod := spec.seriesClassMethod;
    var seriesOperation := spec.seriesOperation;
    var m: map<string, string> := map[];
    var size := |seriesOperation|;
    for i := 0 to size
      invariant i <= |seriesClassMethod|
      invariant m == Routing(seriesOperation[..i], seriesClassMethod)
    {
      if i >= |seriesClassMethod| {
        return Err(ArrayIndexOutOfBoundsException);
      }
      assert seriesOperation[..i + 1][..i] == seriesOperation[..i];
      m := m[seriesOperation[i] := seriesClassMethod[i]];
    }
    assert seriesOperation[..size] == seriesOperation;
    return Ok(m);
  }

  // ---------------------------------------------------------------------------
  // The thread factory
  // ---------------------------------------------------------------------------

  /** `AtomicInteger.addAndGet(1)`, which wraps around at the top of `int`. */
  function AddOne(n: Int32): (r: Int32)
    ensures n < MAX_INT ==> r == n + 1
    ensures n == MAX_INT ==> r == MIN_INT
  {
    if n == MAX_INT then MIN_INT else n + 1
  }

  /** The name the factory gives its `n`-th thread. */
  function ThreadName(n: int): (r: string)
    ensures |r| > |THREAD_NAME_PREFIX| && r[..|THREAD_NAME_PREFIX|] == THREAD_NAME_PREFIX
    ensures n >= 0 ==> r[|THREAD_NAME_PREFIX|..] == NatToDecimal(n) && AllDigits(r[|THREAD_NAME_PREFIX|..])
    ensures n < 0 ==> r[|THREAD_NAME_PREFIX|] == '-'
  {
    THREAD_NAME_PREFIX + IntToDecimal(n)
  }

  /** Threads numbered with different non-negative counts get different names. */
  lemma ThreadNamesDistinct(m: nat, n: nat)
    requires ThreadName(m) == ThreadName(n)
    ensures m == n
  {
    assert IntToDecimal(m) == ThreadName(m)[|THREAD_NAME_PREFIX|..];
    assert IntToDecimal(n) == ThreadName(n)[|THREAD_NAME_PREFIX|..];
    NatToDecimalInjective(m, n);
  }

  /** A new factory's count starts at 0, so its first thread is number 1. */
  lemma FirstThreadName()
    ensures ThreadName(AddOne(0)) == "OperationThreadFactory-1"
  {
    assert IntToDecimal(1) == [DigitChar(1)] == "1";
  }

  class OperationThreadFactory {
    var count: Int32

    constructor ()
      ensures count == 0
    {
      count := 0;
    }

    /** Numbers the next thread; the thread itself is represented by its name. */
    method NewThread() returns (name: string)
      modifies this
      ensures count == AddOne(old(count))
      ensures name == ThreadName(count)
    {
      count := AddOne(count);
      name := ThreadName(count);
    }
  }

  // ---------------------------------------------------------------------------
  // The pools
  // ---------------------------------------------------------------------------

  /**
   * The parameters `new ArrayBlockingQueue(workQueueSize)`, `new
   * ThreadPoolExecutor(...)` and `allowCoreThreadTimeOut(...)` accept; each
   * of them throws `IllegalArgumentException` on anything else.
   */
  predicate PoolParamsValid(spec: Config.PoolSpec)
  {
    && spec.workQueueSize > 0
    && spec.corePoolSize >= 0
    && spec.maximumPoolSize > 0
    && spec.maximumPoolSize >= spec.corePoolSize
    && spec.keepAliveTime >= 0
    && (spec.allowCoreThreadTimeout ==> spec.keepAliveTime > 0)
  }

  class ThreadPoolExecutor {
    const corePoolSize: Int32
    const maximumPoolSize: Int32
    /** In seconds. */
    const keepAliveTime: Int32
    const workQueueCapacity: Int32
    const threadFactory: OperationThreadFactory
    var allowsCoreThreadTimeOut: bool

    /** The parameters the executor was built from and the time-out flag set on it. */
    ghost predicate Configured(spec: Config.PoolSpec)
      reads this
    {
      && corePoolSize == spec.corePoolSize
      && maximumPoolSize == spec.maximumPoolSize
      && keepAliveTime == spec.keepAliveTime
      && workQueueCapacity == spec.workQueueSize
      && allowsCoreThreadTimeOut == spec.allowCoreThreadTimeout
    }

    /** The pool's own checks on its arguments; callers meet them or get `IllegalArgumentException` first. */
    constructor (corePoolSize: Int32, maximumPoolSize: Int32, keepAliveTime: Int32,
                 workQueueCapacity: Int32, threadFactory: OperationThreadFactory)
      requires workQueueCapacity > 0
      requires corePoolSize >= 0 && maximumPoolSize > 0 && maximumPoolSize >= corePoolSize && keepAliveTime >= 0
      ensures this.corePoolSize == corePoolSize && this.maximumPoolSize == maximumPoolSize
      ensures this.keepAliveTime == keepAliveTime && this.workQueueCapacity == workQueueCapacity
      ensures this.threadFactory == threadFactory && !allowsCoreThreadTimeOut
    {
      this.corePoolSize := corePoolSize;
      this.maximumPoolSize := maximumPoolSize;
      this.keepAliveTime := keepAliveTime;
      this.workQueueCapacity := workQueueCapacity;
      this.threadFactory := threadFactory;
      allowsCoreThreadTimeOut := false;
    }

    method AllowCoreThreadTimeOut(value: bool)
      requires value ==> keepAliveTime > 0
      modifies this
      ensures allowsCoreThreadTimeOut == value
    {
      allowsCoreThreadTimeOut := value;
    }

    /**
     * Runs the task to completion. What the task throws ends its worker
     * thread and never reaches the caller of `execute`.
     */
    method Execute(task: OperationThread)
      modifies task.operationResult, task.countDownLatch
      ensures task.Expected().None? ==>
        && task.operationResult.items == old(task.operationResult.items)
        && task.countDownLatch.count == old(task.countDownLatch.count)
      ensures task.Expected().Some? ==>
        && |task.operationResult.items| == |old(task.operationResult.items)| + 1
        && task.operationResult.items[..|old(task.operationResult.items)|] == old(task.operationResult.items)
        && fresh(task.operationResult.items[|old(task.operationResult.items)|])
        && task.operationResult.items[|old(task.operationResult.items)|] !in old(task.operationResult.items)
        && task.operationResult.items[|old(task.operationResult.items)|].View() == task.Expected().value
        && task.countDownLatch.count == if old(task.countDownLatch.count) == 0 then 0 else old(task.countDownLatch.count) - 1
    {
      var _ := task.Run();
    }
  }

  /** An element of the list `getOperationList` returns: the pool, then (for a top-level request) the routing table. */
  datatype ListEntry = PoolEntry(pool: ThreadPoolExecutor) | RoutingEntry(routing: map<string, string>)

  /**
   * The outcome of `getOperationList(operation, isMaximum)`, leaving out
   * which pool object is handed back: `known` are the operations that have a
   * pool already, `spec` is what the configuration holds for `operation`.
   * On success it is the routing table when one is asked for.
   */
  function AcquireSpec(known: set<string>, operation: string, spec: Option<Config.PoolSpec>, isMaximum: bool)
    : (r: Result<Option<map<string, string>>>)
    ensures spec.None? ==> r == Err(QuickQuarantineException(UNKNOWN_OPERATION))
    ensures r.Ok? ==> (r.value.Some? <==> isMaximum)
    ensures r.Ok? && isMaximum ==> r.value.value.Keys == set x | x in spec.value.seriesOperation
  {
    if spec.None? then Err(QuickQuarantineException(UNKNOWN_OPERATION))
    else if operation !in known && !PoolParamsValid(spec.value) then Err(IllegalArgumentException)
    else if !isMaximum then Ok(None)
    else
      match RoutingResult(spec.value.seriesOperation, spec.value.seriesClassMethod)
      case Err(e) => Err(e)
      case Ok(m) =>
        RoutingKeys(spec.value.seriesOperation, spec.value.seriesClassMethod);
        Ok(Some(m))
  }

  /**
   * How a request for `operation`'s pool changes the registry `before`
   * into `after`, given what the configuration holds for it (`spec`): a
   * known operation, an unknown one and parameters the pool refuses leave
   * it as it is; otherwise the one new pool, configured from `spec`, is
   * stored under `operation`, even when building the routing table fails
   * afterwards.
   */
  ghost predicate RegistryStep(before: map<string, ThreadPoolExecutor>, after: map<string, ThreadPoolExecutor>,
                               operation: string, spec: Option<Config.PoolSpec>)
    reads if operation in after then {after[operation]} else {}
  {
    if operation in before || spec.None? || !PoolParamsValid(spec.value) then after == before
    else operation in after && after == before[operation := after[operation]] && after[operation].Configured(spec.value)
  }

  /** The registry of pools (the static state of `OperationThreadPool`). */
  class OperationThreadPool {
    var threadPoolMap: map<string, ThreadPoolExecutor>

    constructor ()
      ensures threadPoolMap == map[]
    {
      threadPoolMap := map[];
    }

    /**
     * The pool for `operation`, created from the configured parameters and
     * stored on first use and reused afterwards, and for a top-level request
     * also the routing table. An operation the configuration does not know
     * leaves the registry as it is; so do parameters the pool refuses.
     */
    method GetOperationList(factory: Config.Factory, operation: string, isMaximum: bool) returns (r: Result<seq<ListEntry>>)
      modifies this
      ensures var a := AcquireSpec(old(threadPoolMap).Keys, operation, factory.GetThreadPoolOperationMap(operation), isMaximum);
        && (r.Err? <==> a.Err?)
        && (r.Err? ==> r.error == a.error)
        && (r.Ok? ==> |r.value| == (if isMaximum then 2 else 1) && operation in threadPoolMap
                      && r.value[0] == PoolEntry(threadPoolMap[operation])
                      && (isMaximum ==> r.value[1] == RoutingEntry(a.value.value)))
      ensures RegistryStep(old(threadPoolMap), threadPoolMap, operation, factory.GetThreadPoolOperationMap(operation))
      ensures operation !in old(threadPoolMap) && operation in threadPoolMap ==> fresh(threadPoolMap[operation])
    {
      var threadPoolParam := factory.GetThreadPoolOperationMap(operation);
      if threadPoolParam.None? {
        return Err(QuickQuarantineException(UNKNOWN_OPERATION));
      }
      var threadPool: ThreadPoolExecutor;
      if operation in threadPoolMap {
        threadPool := threadPoolMap[operation];
      } else {
        var created := CreateThreadPool(operation, threadPoolParam.value);
        if created.Err? {
          return Err(created.error);
        }
        threadPool := created.value;
      }
      var operationList := [PoolEntry(threadPool)];
      if isMaximum {
        var routing := SetOperationList(threadPoolParam.value);
        if routing.Err? {
          return Err(routing.error);
        }
        operationList := operationList + [RoutingEntry(routing.value)];
      }
      return Ok(operationList);
    }

    /** `createThreadPool`: builds the pool and stores it under `operation`, or throws before storing anything. */
    method CreateThreadPool(operation: string, spec: Config.PoolSpec) returns (r: Result<ThreadPoolExecutor>)
      modifies this
      ensures !PoolParamsValid(spec) ==> r == Err(IllegalArgumentException) && threadPoolMap == old(threadPoolMap)
      ensures PoolParamsValid(spec) ==>
        && r.Ok? && fresh(r.value) && r.value.Configured(spec)
        && threadPoolMap == old(threadPoolMap)[operation := r.value]
    {
      var threadFactory := new OperationThreadFactory();
      if spec.workQueueSize <= 0 {
        return Err(IllegalArgumentException);
      }
      if spec.corePoolSize < 0 || spec.maximumPoolSize <= 0 || spec.maximumPoolSize < spec.corePoolSize || spec.keepAliveTime < 0 {
        return Err(IllegalArgumentException);
      }
      var threadPool := new ThreadPoolExecutor(spec.corePoolSize, spec.maximumPoolSize, spec.keepAliveTime,
                                               spec.workQueueSize, threadFactory);
      if spec.allowCoreThreadTimeout && spec.keepAliveTime <= 0 {
        return Err(IllegalArgumentException);
      }
      threadPool.AllowCoreThreadTimeOut(spec.allowCoreThreadTimeout);
      threadPoolMap := threadPoolMap[operation := threadPool];
      return Ok(threadPool);
    }
  }

  /** Asking twice for the same operation's pool creates it at most once: the second request finds it. */
  lemma SecondRequestReuses(known: set<string>, operation: string, spec: Config.PoolSpec, isMaximum: bool)
    requires AcquireSpec(known, operation, Some(spec), isMaximum).Ok?
    ensures AcquireSpec(known + {operation}, operation, Some(spec), isMaximum) == AcquireSpec(known, operation, Some(spec), isMaximum)
    ensures !isMaximum ==> AcquireSpec(known, operation, Some(spec), isMaximum) == Ok(None)
  {
  }

  // ---------------------------------------------------------------------------
  // The worker task
  // ---------------------------------------------------------------------------

  /** The reason recorded for a run that went wrong. */
  function IncidentText(e: Exception): string
  {
    INCIDENT_PREFIX + ExceptionText(e) + " ]"
  }

  /** The incident text carries the exception's text between its fixed opening and " ]", so it can be read back. */
  lemma IncidentTextParts(e: Exception)
    ensures var r := IncidentText(e);
      && |r| == |INCIDENT_PREFIX| + |ExceptionText(e)| + 2
      && r[..|INCIDENT_PREFIX|] == INCIDENT_PREFIX && r[|r| - 2..] == " ]"
      && r[|INCIDENT_PREFIX|..|r| - 2] == ExceptionText(e)
  {
  }

  /** The exception for a handler that returned null (the result variable is still null when it is formatted). */
  function NullResultText(operation: string): string
  {
    RETURN_PREFIX + operation + NULL_RETURN_SUFFIX
  }

  /** The null-result text names the operation right after its fixed opening. */
  lemma NullResultTextParts(operation: string)
    ensures var r := NullResultText(operation);
      && |r| == |RETURN_PREFIX| + |operation| + |NULL_RETURN_SUFFIX|
      && r[..|RETURN_PREFIX|] == RETURN_PREFIX && r[|r| - |NULL_RETURN_SUFFIX|..] == NULL_RETURN_SUFFIX
      && r[|RETURN_PREFIX|..|RETURN_PREFIX| + |operation|] == operation
  {
  }

  /** The exception for a handler whose result has no result code. */
  function MissingCodeText(operation: string, v: ResultView): string
  {
    RETURN_PREFIX + operation + RETURN_MIDDLE + ResultText(v) + MISSING_CODE_SUFFIX
  }

  /** The missing-code text names the operation and then holds the result's own text. */
  lemma MissingCodeTextParts(operation: string, v: ResultView)
    ensures var r := MissingCodeText(operation, v);
      && |r| == |RETURN_PREFIX| + |operation| + |RETURN_MIDDLE| + |ResultText(v)| + |MISSING_CODE_SUFFIX|
      && r[..|RETURN_PREFIX|] == RETURN_PREFIX && r[|r| - |MISSING_CODE_SUFFIX|..] == MISSING_CODE_SUFFIX
      && r[|RETURN_PREFIX|..|RETURN_PREFIX| + |operation|] == operation
      && r[|RETURN_PREFIX| + |operation| + |RETURN_MIDDLE|..|r| - |MISSING_CODE_SUFFIX|] == ResultText(v)
  {
  }

  /** The result a failed run records: a fresh result marked failed with the incident text, stamped with the operation. */
  function FailedView(operation: string, e: Exception): ResultView
  {
    ResultView(Some(operation), Some(IncidentText(e)), Some(ERROR), Null)
  }

  /**
   * What the worker makes of a handler's outcome: the result to record, or
   * none when an `Error` left the call, which `catch (Exception e)` does not
   * catch.
   */
  function Normalise(operation: string, o: Outcome): (v: Option<ResultView>)
    ensures v.None? <==> o.ErrorRaised?
    ensures v.Some? ==> v.value.operation == Some(operation)
    ensures o.Returned? && o.view.resultCode.Some? ==> v == Some(o.view.(operation := Some(operation)))
    ensures o.Threw? ==> v == Some(FailedView(operation, o.exception))
    ensures o.ReturnedNull? ==> v == Some(FailedView(operation, QuickQuarantineException(NullResultText(operation))))
    ensures o.Returned? && o.view.resultCode.None? ==>
      v == Some(FailedView(operation, QuickQuarantineException(MissingCodeText(operation, o.view))))
  {
    match o
    case Threw(e) => Some(FailedView(operation, e))
    case ReturnedNull => Some(FailedView(operation, QuickQuarantineException(NullResultText(operation))))
    case Returned(r) =>
      if r.resultCode.None? then Some(FailedView(operation, QuickQuarantineException(MissingCodeText(operation, r))))
      else Some(r.(operation := Some(operation)))
    case ErrorRaised => None
  }

  /**
   * The result `run` records for `operation` routed to `classMethod` (null
   * when the routing table has no entry for it) on `input`; none when the
   * handler's class fails to initialise.
   */
  function RunSpec(table: ClassTable, operation: string, classMethod: Option<string>, input: Option<InputView>): Option<ResultView>
  {
    if classMethod.None? then Some(FailedView(operation, NullPointerException))
    else
      var cm := classMethod.value;
      Normalise(operation, InvokeSpec(table, Security.ClassNameOf(cm), Security.MethodNameOf(cm), input))
  }

  /**
   * `run` records nothing exactly when the class its handler id names
   * fails to initialise: the `Error` passes the `catch`, and the `finally`
   * block then dereferences the still-null result.
   */
  lemma RunRecordsNothing(table: ClassTable, operation: string, classMethod: Option<string>, input: Option<InputView>)
    ensures RunSpec(table, operation, classMethod, input).None? <==>
      && classMethod.Some?
      && Security.ClassNameOf(classMethod.value) in table
      && table[Security.ClassNameOf(classMethod.value)].InitFails?
  {
  }

  /**
   * Every recorded result carries its sub-operation and a result code of
   * "error" or "success", never null, whatever the handler returned or threw.
   */
  lemma RunStampedAndCoded(table: ClassTable, operation: string, classMethod: Option<string>, input: Option<InputView>)
    requires RunSpec(table, operation, classMethod, input).Some?
    ensures RunSpec(table, operation, classMethod, input).value.operation == Some(operation)
    ensures RunSpec(table, operation, classMethod, input).value.resultCode in {Some(ERROR), Some(SUCCESS)}
  {
    if classMethod.Some? {
      var cm := classMethod.value;
      InvokeResultCode(table, Security.ClassNameOf(cm), Security.MethodNameOf(cm), input);
    }
  }

  /**
   * A run is recorded as successful only when its handler was found, ran
   * and itself returned a successful result, which is then kept as it was
   * apart from the operation stamp.
   */
  lemma RunSucceeded(table: ClassTable, operation: string, classMethod: Option<string>, input: Option<InputView>)
    requires RunSpec(table, operation, classMethod, input).Some?
    requires RunSpec(table, operation, classMethod, input).value.resultCode == Some(SUCCESS)
    ensures classMethod.Some?
    ensures var cm := classMethod.value;
      var o := InvokeSpec(table, Security.ClassNameOf(cm), Security.MethodNameOf(cm), input);
      && o.Returned? && o.view.resultCode == Some(SUCCESS)
      && RunSpec(table, operation, classMethod, input) == Some(o.view.(operation := Some(operation)))
  {
  }

  /** For a handler id `P.m`, the worker invokes method `m` of class `P`. */
  lemma RunHandlerId(table: ClassTable, operation: string, p: string, m: string, input: Option<InputView>)
    requires Security.IsIdentifier(m)
    ensures RunSpec(table, operation, Some(p + "." + m), input) == Normalise(operation, InvokeSpec(table, p, Some(m), input))
  {
    Security.HandlerIdSplit(p, m);
  }

  /**
   * For a handler id `P.m` followed by one line terminator `e`, the worker
   * still calls method `m`, but looks it up in the class named `P` followed
   * by `e`.
   */
  lemma RunHandlerIdLineEnd(table: ClassTable, operation: string, p: string, m: string, e: string, input: Option<InputView>)
    requires Security.IsIdentifier(m) && Security.IsLineEnd(e)
    ensures RunSpec(table, operation, Some(p + "." + m + e), input) == Normalise(operation, InvokeSpec(table, p + e, Some(m), input))
  {
    Security.HandlerIdLineEnd(p, m, e);
  }

  /** `new OperationResult()` followed by `error` with the incident text of `e`: `FailedView` before the stamp. */
  method NewFailedResult(operation: string, e: Exception) returns (r: OperationResult)
    ensures fresh(r) && r.View().(operation := Some(operation)) == FailedView(operation, e)
  {
    r := new OperationResult();
    r.Error(Some(IncidentText(e)));
  }

  /** The runnable `OperationThread`, with the class table its reflective call looks handlers up in. */
  class OperationThread {
    const operation: string
    const classMethod: Option<string>
    const input: Option<OperationInput>
    const operationResult: Vector<OperationResult>
    const countDownLatch: CountDownLatch
    const table: ClassTable

    constructor (operation: string, classMethod: Option<string>, input: Option<OperationInput>,
                 operationResult: Vector<OperationResult>, countDownLatch: CountDownLatch, table: ClassTable)
      ensures this.operation == operation && this.classMethod == classMethod && this.input == input
      ensures this.operationResult == operationResult && this.countDownLatch == countDownLatch && this.table == table
    {
      this.operation := operation;
      this.classMethod := classMethod;
      this.input := input;
      this.operationResult := operationResult;
      this.countDownLatch := countDownLatch;
      this.table := table;
    }

    /** The result this task records, if any. */
    function Expected(): Option<ResultView>
      reads if input.Some? then {input.value} else {}
    {
      RunSpec(table, operation, classMethod, ViewOf(input))
    }

    /**
     * `run`: records one new result and counts the latch down once, or,
     * when the handler's class fails to initialise, ends with the
     * `NullPointerException` of its `finally` block having recorded nothing
     * and left the latch as it was.
     */
    method Run() returns (thrown: Option<Exception>)
      modifies operationResult, countDownLatch
      ensures thrown.Some? <==> Expected().None?
      ensures thrown.Some? ==> thrown.value == NullPointerException
      ensures Expected().None? ==>
        operationResult.items == old(operationResult.items) && countDownLatch.count == old(countDownLatch.count)
      ensures Expected().Some? ==>
        && |operationResult.items| == |old(operationResult.items)| + 1
        && operationResult.items[..|old(operationResult.items)|] == old(operationResult.items)
        && fresh(operationResult.items[|old(operationResult.items)|])
        && operationResult.items[|old(operationResult.items)|] !in old(operationResult.items)
        && operationResult.items[|old(operationResult.items)|].View() == Expected().value
        && countDownLatch.count == if old(countDownLatch.count) == 0 then 0 else old(countDownLatch.count) - 1
    {
      var or := Attempt();
      // finally
      if or.None? {
        // `or.setOperation(operation)` on the null `or`
        return Some(NullPointerException);
      }
      or.value.SetOperation(Some(operation));
      operationResult.Add(or.value);
      countDownLatch.CountDown();
      return None;
    }

    /**
     * The `try` and `catch` blocks of `run`: the result to record, before
     * it is stamped, or none when an `Error` escapes them with `or` still null.
     */
    method Attempt() returns (or: Option<OperationResult>)
      ensures or.None? <==> Expected().None?
      ensures or.Some? ==> fresh(or.value) && Some(or.value.View().(operation := Some(operation))) == Expected()
    {
      if classMethod.None? {
        // the pattern matcher dereferences the missing handler id
        var r := NewFailedResult(operation, NullPointerException);
        or := Some(r);
      } else {
        var className := Security.ClassNameOf(classMethod.value);
        var methodName := Security.GetFirstStr(Security.MethodNamePattern, classMethod.value);
        var ro := EchoStaticMethodByClass(table, className, methodName, input);
        ghost var o := InvokeSpec(table, className, methodName, ViewOf(input));
        assert Expected() == Normalise(operation, o);
        assert o == Snapshot(ro);
        if ro.InvError? {
          or := None;
        } else if ro.InvReturned? && ro.obj.GetResultCode().Some? {
          assert Expected() == Some(ro.obj.View().(operation := Some(operation)));
          or := Some(ro.obj);
        } else {
          var e := if ro.InvThrew? then ro.exception
                   else if ro.InvNull? then QuickQuarantineException(NullResultText(operation))
                   else QuickQuarantineException(MissingCodeText(operation, ro.obj.View()));
          assert Normalise(operation, o) == Some(FailedView(operation, e));
          var r := NewFailedResult(operation, e);
          or := Some(r);
        }
      }
    }
  }
}
