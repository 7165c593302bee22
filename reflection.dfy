/**
 * `SecurityUtils.echoStaticMethodByClass` as the worker calls it: load and
 * initialise a class by name, check that it declares a method of the given
 * name, take the static method of that name with one `OperationInput`
 * parameter, invoke it and insist that it hands back an `OperationResult`.
 * The classes the class loader can see are a parameter: each either fails
 * to initialise or declares its methods.
 */
module Reflection {
  import opened Lang
  import opened InputEntity
  import opened ResultEntity
  import Operation1

  const RESULT_CLASS: string := "com.github.quickquarantine.entity.OperationResult"
  const INPUT_CLASS: string := "com.github.quickquarantine.entity.OperationInput"

  /** What a method body does when it is invoked. */
  datatype Body =
    | Sub1Body                        // `Operation1.sub1`
    | Sub2Body                        // `Operation1.sub2`
    | Scripted(calls: seq<Mutator>)   // builds a fresh result and makes these calls on it
    | Throwing(e: Exception)          // throws `e`
    | ReturningNull                   // returns null

  /** A declared method, as far as the lookup and the checks after the call can tell. */
  datatype Handler =
    | Static(body: Body)                 // `static`, one `OperationInput` parameter, returns an `OperationResult` or null
    | StaticReturningOther(typeName: string)  // the same, but returns an object of another class, `typeName`
    | InstanceMethod                     // the `(OperationInput)` overload is not static
    | OtherParameters                    // no overload takes exactly one `OperationInput`

  /**
   * A class the loader finds: one whose static initialiser throws (so
   * `Class.forName` raises `ExceptionInInitializerError`, and
   * `NoClassDefFoundError` on any later attempt), or one that initialises
   * and declares these methods by name.
   */
  datatype JavaClass = InitFails | Initialised(methods: map<string, Handler>)

  /** Loadable class names. */
  type ClassTable = map<string, JavaClass>

  function NoMethodText(className: string, methodName: string): string
  {
    "当前" + className + "类,不存在" + methodName + "方法!"
  }

  function NotStaticText(className: string, methodName: string): string
  {
    "当前" + className + "类的" + methodName + "方法实际是对象的方法,不是期望的类的方法!"
  }

  function ReturnsNullText(className: string, methodName: string): string
  {
    "当前" + className + "类的" + methodName + "方法实际是返回null的方法,不是期望的有返回值的方法!"
  }

  function WrongTypeText(className: string, methodName: string, realName: string): string
  {
    "当前" + className + "类的" + methodName + "方法返回值实际是[ " + realName + " ]类型,不是期望的[ " + RESULT_CLASS + " ]类型!"
  }

  /** The message of `getDeclaredMethod`'s `NoSuchMethodException`. */
  function SignatureText(className: string, methodName: string): string
  {
    className + "." + methodName + "(" + INPUT_CLASS + ")"
  }

  /** What running a body on an input comes to. */
  function BodyOutcome(b: Body, input: Option<InputView>): Outcome
  {
    match b
    case Sub1Body => Operation1.Sub1Spec(input)
    case Sub2Body => Operation1.Sub2Spec()
    case Scripted(ms) => Returned(MutateAll(FRESH_RESULT, ms))
    case Throwing(e) => Threw(e)
    case ReturningNull => ReturnedNull
  }

  /**
   * The outcome of `echoStaticMethodByClass(className, methodName, {OperationInput},
   * {input}, OperationResult)`, check by check in the order the source makes them.
   */
  function InvokeSpec(table: ClassTable, className: string, methodName: Option<string>, input: Option<InputView>): (o: Outcome)
    ensures !o.ReturnedNull?
    ensures className !in table ==> o == Threw(ClassNotFoundException(className))
    ensures o.ErrorRaised? <==> className in table && table[className].InitFails?
    ensures o.Returned? ==> className in table && table[className].Initialised? && methodName.Some? &&
                            methodName.value in table[className].methods
  {
    if className !in table then Threw(ClassNotFoundException(className))
    else if table[className].InitFails? then ErrorRaised
    else
      var declared := table[className].methods;
      if methodName.None? then
        (if declared == map[] then Threw(RuntimeException(NoMethodText(className, "null"))) else Threw(NullPointerException))
      else
        var m := methodName.value;
        if m !in declared then Threw(RuntimeException(NoMethodText(className, m)))
        else
          match declared[m]
          case OtherParameters => Threw(NoSuchMethodException(SignatureText(className, m)))
          case InstanceMethod => Threw(RuntimeException(NotStaticText(className, m)))
          case StaticReturningOther(t) => Threw(RuntimeException(WrongTypeText(className, m, t)))
          case Static(b) =>
            match BodyOutcome(b, input)
            case Returned(v) => Returned(v)
            case ReturnedNull => Threw(RuntimeException(ReturnsNullText(className, m)))
            case _ => Threw(InvocationTargetException) // `invoke` wraps whatever the body throws
  }

  /**
   * A static handler that returns a result hands that result back untouched;
   * one that throws is reported as `InvocationTargetException`, whatever it threw.
   */
  lemma InvokeStatic(table: ClassTable, className: string, methodName: string, input: Option<InputView>)
    requires className in table && table[className].Initialised?
    requires methodName in table[className].methods && table[className].methods[methodName].Static?
    ensures var o := BodyOutcome(table[className].methods[methodName].body, input);
      && (o.Returned? ==> InvokeSpec(table, className, Some(methodName), input) == o)
      && (o.Threw? ==> InvokeSpec(table, className, Some(methodName), input) == Threw(InvocationTargetException))
      && (o.ReturnedNull? ==>
            InvokeSpec(table, className, Some(methodName), input) == Threw(RuntimeException(ReturnsNullText(className, methodName))))
  {
  }

  /**
   * A result handed back by `echoStaticMethodByClass` carries a result code
   * that is null, "error" or "success": the handlers only write it through
   * `error` and `success`.
   */
  lemma InvokeResultCode(table: ClassTable, className: string, methodName: Option<string>, input: Option<InputView>)
    ensures var o := InvokeSpec(table, className, methodName, input);
      o.Returned? ==> ValidCode(o.view.resultCode)
  {
    var o := InvokeSpec(table, className, methodName, input);
    if o.Returned? {
      var b := table[className].methods[methodName.value].body;
      if b.Scripted? {
        MutateAllCode(FRESH_RESULT, b.calls);
      }
    }
  }

  /** A method name that no declared method has is reported with both names. */
  lemma MissingMethod(table: ClassTable, className: string, methodName: Option<string>, input: Option<InputView>)
    requires className in table && table[className].Initialised?
    requires methodName.Some? ==> methodName.value !in table[className].methods
    ensures methodName.Some? || table[className].methods == map[] ==>
      InvokeSpec(table, className, methodName, input) == Threw(RuntimeException(NoMethodText(className, OptionText(methodName))))
    ensures methodName.None? && table[className].methods != map[] ==>
      InvokeSpec(table, className, methodName, input) == Threw(NullPointerException)
  {
  }

  /** Runs a body, returning the object it builds. */
  method InvokeBody(b: Body, input: Option<OperationInput>) returns (inv: Invocation)
    ensures Snapshot(inv) == BodyOutcome(b, ViewOf(input))
    ensures inv.InvReturned? ==> fresh(inv.obj)
  {
    match b
    case Sub1Body =>
      inv := Operation1.Sub1(input);
    case Sub2Body =>
      inv := Operation1.Sub2(input);
    case Scripted(ms) =>
      var r := new OperationResult();
      r.ApplyAll(ms);
      inv := InvReturned(r);
    case Throwing(e) =>
      inv := InvThrew(e);
    case ReturningNull =>
      inv := InvNull;
  }

  /** `echoStaticMethodByClass`, with the scan over the declared methods the source makes. */
  method EchoStaticMethodByClass(table: ClassTable, className: string, methodName: Option<string>, input: Option<OperationInput>)
    returns (inv: Invocation)
    ensures Snapshot(inv) == InvokeSpec(table, className, methodName, ViewOf(input))
    ensures inv.InvReturned? ==> fresh(inv.obj)
  {
    if className !in table {
      return InvThrew(ClassNotFoundException(className));
    }
    if table[className].InitFails? {
      // `Class.forName` runs the failing static initialiser
      return InvError;
    }
    var declared := table[className].methods;
    var haveMethod := false;
    var remaining := declared.Keys;
    while remaining != {}
      invariant remaining <= declared.Keys
      invariant remaining != declared.Keys ==> methodName.Some?
      invariant !haveMethod
      invariant methodName.Some? ==> methodName.value !in declared.Keys - remaining
      decreases |remaining|
    {
      var name :| name in remaining;
      if methodName.None? {
        return InvThrew(NullPointerException);
      }
      if methodName.value == name {
        haveMethod := true;
        break;
      }
      remaining := remaining - {name};
    }
    if !haveMethod {
      return InvThrew(RuntimeException(NoMethodText(className, OptionText(methodName))));
    }
    var m := methodName.value;
    match declared[m]
    case OtherParameters =>
      inv := InvThrew(NoSuchMethodException(SignatureText(className, m)));
    case InstanceMethod =>
      inv := InvThrew(RuntimeException(NotStaticText(className, m)));
    case StaticReturningOther(t) =>
      inv := InvThrew(RuntimeException(WrongTypeText(className, m, t)));
    case Static(b) =>
      var ro := InvokeBody(b, input);
      match ro
      case InvReturned(_) =>
        inv := ro;
      case InvNull =>
        inv := InvThrew(RuntimeException(ReturnsNullText(className, m)));
      case _ =>
        inv := InvThrew(InvocationTargetException);
  }
}
