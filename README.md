# QuickQuarantine in Dafny

QuickQuarantine isolates the sub-operations of a business operation. Each
top-level operation gets its own thread pool, shared by every request for
that operation. The pool is built from the parameters in the operation's
configuration file. That file also pairs each sub-operation with a handler: a
static method `Class.method(OperationInput)` that returns an
`OperationResult`. A caller asks for one sub-operation, a list of them, or
all of them. The engine then does four things:

- it submits one worker task per sub-operation;
- each task invokes its handler reflectively;
- each task turns any exception into an "error" result, stamps the result
  with its sub-operation, appends it to a shared list and counts a latch
  down;
- once the latch reaches zero, the engine returns the list.

A handler whose class fails to initialise raises an `Error`, not an
exception. The task's catch block does not catch it, so that task records
nothing and never counts the latch down, and the request waits for ever.

This project models that core, module by module:

- `Lang` (`lang.dfy`): what the core uses of the Java platform. This covers
  nullable references, exceptions and their `toString`, `Integer.parseInt`
  and `Integer.toString`, `String.trim`, `String.split("\\|")` and
  `String.contains`. It also has the `CountDownLatch` and the results
  `Vector`.
- `ResultEntity` (`operation_result.dfy`): `OperationResult`, a class with a
  value view of its four fields.
- `InputEntity` (`operation_input.dfy`): `OperationInput`, the tagged input.
- `Security` (`security_utils.dfy`): the handler-id patterns, `getFirstStr`,
  `getLetter` and `getSalt`.
- `Builder` (`factory_builder.dfy`): `FactoryBuilder`, the manifest location.
- `Config` (`factory.dfy`): `Factory`. It parses each operation's
  configuration file into a `PoolSpec` and loads them all from the manifest.
- `Operation1` (`operation1.dfy`): the two sample handlers.
- `Reflection` (`reflection.dfy`): `echoStaticMethodByClass` as the worker
  uses it. The classes visible to the class loader are a parameter, a
  `ClassTable`.
- `ThreadPool` (`thread_pool.dfy`): `OperationThreadPool`. This covers the
  pool registry, the routing table, the thread factory and the worker task
  `OperationThread`.
- `Engine` (`engine.dfy`): `IQuickQuarantine`, the three entry points, and
  the sample handlers run end to end through the worker.

Objects the source updates in place are classes with `modifies` clauses. This
applies to the two entities, the builder, the factory, the pool registry, the
executor, the thread factory, the worker task, the latch and the results
vector. Each such class has a value view, and its methods are specified
against pure functions of the old state. Pure computations and the
properties proved about them are functions and lemmas:

- `CheckEmpty`, `BuildSpec`, `RoutingResult`, `AcquireSpec`, `InvokeSpec`,
  `RunSpec`;
- the round trip from a specification to a configuration file and back;
- a sub-operation's last entry in the routing table wins;
- every recorded result carries its sub-operation and a non-null code.

The thread pool runs each task to completion when it is submitted. Without
this, the results could not be stated in order; "Left out" says what that
costs.

Behaviour of the code worth noting:

- `success()` sets only the result code. A failure reason set earlier stays
  (`OperationResult.java:48-50`).
- A configuration with fewer handler ids than sub-operations fails only for
  a top-level request. The failure comes
  after a new pool has been created and stored (`OperationThreadPool.java:115-118`,
  `153-155`). Extra handler ids are ignored.
- Pattern text with a `{n}` group but no range marker fails in `getSalt` only
  when `n > 0` (`SecurityUtils.java:112-117`).
- `getLetter` draws digits from 0..8: `nextInt(9)` never yields 9
  (`SecurityUtils.java:135`).
- `Factory.java:126` uses `FactoryBuilder.SEPARATOR`, but `FactoryBuilder`
  declares no such field. It is modelled as the path separator of
  `FactoryBuilder.java:15`, fixed to "/".
- The reflection layer reports a handler that returns null as a
  `RuntimeException` before the worker's own null check
  (`SecurityUtils.java:353-355`). That check therefore cannot be reached
  through `echoStaticMethodByClass`. `Normalise` still models it.
- A handler class whose static initialiser fails raises
  `ExceptionInInitializerError` (and `NoClassDefFoundError` afterwards).
  `catch (Exception e)` does not catch it. The `finally` block then calls
  `setOperation` on a null result, so nothing is added and the latch is not
  counted down (`OperationThreadPool.java:249-262`). The engine's `await`
  then blocks for ever (`IQuickQuarantine.java:39`, `60`, `73`); the model
  reports this as `Blocked`.
- `$` in the handler-id patterns also matches before one final line
  terminator. A handler id `P.m` followed by "\n" is therefore split into
  the class `P` followed by "\n" and the method `m`
  (`Security.HandlerIdLineEnd`).
- Fewer handler ids than sub-operations fails with
  `ArrayIndexOutOfBoundsException`, because both lists come from
  `Arrays.asList` (`Factory.java:148-149`).
- The multi-operation tests give `sub1` an object input (`initOperationInput("")`).
  `sub1` reads only a list, so that run is recorded as a failure
  (`Engine.Sub1ObjectInputFails`).

## Model

| member | source | states |
|---|---|---|
| Lang.ParseInt | QuickQuarantine/src/com/github/quickquarantine/Factory.java:137-140 | `Integer.parseInt` succeeds exactly on an optional sign and one digit or more whose value is in the range of `int`, and returns that value; otherwise it throws `NumberFormatException` |
| Lang.ParseIntExamples | QuickQuarantine/src/com/github/quickquarantine/Factory.java:137-140 | "+7" and "007" give 7 and "-0" gives 0; "", "-" and " 7" are refused |
| Lang.ParseIntOutOfRange | QuickQuarantine/src/com/github/quickquarantine/Factory.java:137-140 | the decimal text of a number past the largest `int` is refused, and so is its negation unless it is the smallest `int` |
| Lang.ParseIntOfDecimal | QuickQuarantine/src/com/github/quickquarantine/Factory.java:137-140 | parsing the decimal text of any `int` gives that `int` back |
| Lang.NatToDecimal | QuickQuarantine/src/com/github/quickquarantine/test/Operation1.java:21 | the decimal text of a number is non-empty digits without a leading zero |
| Lang.NatToDecimalInjective | QuickQuarantine/src/com/github/quickquarantine/thread/OperationThreadPool.java:172 | different numbers have different decimal texts |
| Lang.Trim | QuickQuarantine/src/com/github/quickquarantine/Factory.java:176 | `trim` drops exactly the leading and trailing characters up to U+0020; the result is empty iff the text is all blanks |
| Lang.TrimOfUnpadded | QuickQuarantine/src/com/github/quickquarantine/Factory.java:176 | a text with no blank at either end is its own trim |
| Lang.SplitBar | QuickQuarantine/src/com/github/quickquarantine/Factory.java:148-149 | `split("\\|")`: pieces contain no '\|'; a text without '\|' gives itself; trailing empty pieces are removed; the pieces joined with '\|' are the text less its trailing '\|'s |
| Lang.JoinDropTrailing | QuickQuarantine/src/com/github/quickquarantine/Factory.java:148-149 | removing trailing empty pieces removes only trailing '\|'s from the joined text |
| Lang.SplitBarOfJoin | QuickQuarantine/src/com/github/quickquarantine/Factory.java:148-149 | names without '\|' (last one not empty) joined with '\|' split back into the same names |
| Lang.CountDownLatch.constructor | QuickQuarantine/src/com/github/quickquarantine/impl/IQuickQuarantine.java:34 | a new latch holds the given count |
| Lang.CountDownLatch.CountDown | QuickQuarantine/src/com/github/quickquarantine/thread/OperationThreadPool.java:261 | the count goes down by one and stays at zero |
| Lang.CountDownLatch.Await | QuickQuarantine/src/com/github/quickquarantine/impl/IQuickQuarantine.java:39 | with every task already run, the wait ends exactly when the count is zero |
| Lang.Vector.Add | QuickQuarantine/src/com/github/quickquarantine/thread/OperationThreadPool.java:259 | the results list gains exactly the one element, at its end |
| ResultEntity.MutateAllCode | QuickQuarantine/src/com/github/quickquarantine/entity/OperationResult.java:43-50 | after any mutator calls, the result code is whatever the last `error`/`success` call wrote, so it stays null, "error" or "success" |
| ResultEntity.MutateAllSplit | QuickQuarantine/src/com/github/quickquarantine/entity/OperationResult.java:31-58 | calling mutators in sequence means applying the last one to the state the others leave |
| ResultEntity.OperationResult.constructor | QuickQuarantine/src/com/github/quickquarantine/entity/OperationResult.java:60-62 | a new result has all four fields null |
| ResultEntity.OperationResult.SetOperation | QuickQuarantine/src/com/github/quickquarantine/entity/OperationResult.java:31-33 | only the operation changes |
| ResultEntity.OperationResult.Error | QuickQuarantine/src/com/github/quickquarantine/entity/OperationResult.java:43-46 | code becomes "error" and the reason is replaced; operation and result stay |
| ResultEntity.OperationResult.Success | QuickQuarantine/src/com/github/quickquarantine/entity/OperationResult.java:48-50 | code becomes "success"; everything else, the reason included, stays |
| ResultEntity.OperationResult.SetResult | QuickQuarantine/src/com/github/quickquarantine/entity/OperationResult.java:56-58 | only the result object changes |
| ResultEntity.OperationResult.ApplyAll | QuickQuarantine/src/com/github/quickquarantine/entity/OperationResult.java:31-58 | running a sequence of mutator calls leaves the state given by `MutateAll` |
| ResultEntity.ResultTextParts | QuickQuarantine/src/com/github/quickquarantine/entity/OperationResult.java:65-67 | `toString` opens with "OperationResult [operation=" followed by the operation (or "null") and closes with " ]" |
| ResultEntity.NewResultText | QuickQuarantine/src/com/github/quickquarantine/entity/OperationResult.java:65-67 | a new result prints "OperationResult [operation=null, errorReason=null, resultCode=null, result=null ]" |
| InputEntity.PayloadOf | QuickQuarantine/src/com/github/quickquarantine/entity/OperationInput.java:75-85 | `getInput(t)` is null when `t` is not the tag and when the tag is unknown; what it returns under each factory's own tag is `FactoryPayloads` |
| InputEntity.FactoryPayloads | QuickQuarantine/src/com/github/quickquarantine/entity/OperationInput.java:33-52 | each factory's input gives its payload under its own tag, null under the others, and leaves the other payload fields null |
| InputEntity.UnknownFormHidesPayload | QuickQuarantine/src/com/github/quickquarantine/entity/OperationInput.java:66-84 | after `setForm` with an unknown tag every `getInput` is null |
| InputEntity.InputText | QuickQuarantine/src/com/github/quickquarantine/entity/OperationInput.java:88-95 | an unknown tag prints as an empty bracket |
| InputEntity.ListInputText | QuickQuarantine/src/com/github/quickquarantine/entity/OperationInput.java:90 | the list input `["a", "b", 1]` prints "OperationInput:[ list=[a, b, 1], form=0 ]" |
| InputEntity.NullListInputText | QuickQuarantine/src/com/github/quickquarantine/entity/OperationInput.java:90 | a list input with a null list prints "OperationInput:[ list=null, form=0 ]" |
| InputEntity.MapInputText | QuickQuarantine/src/com/github/quickquarantine/entity/OperationInput.java:91 | the map input `{k=v}` prints "OperationInput:[ map={k=v}, form=1 ]" |
| InputEntity.ObjectInputText | QuickQuarantine/src/com/github/quickquarantine/entity/OperationInput.java:92 | the object input 7 prints "OperationInput:[ o=7, form=2 ]" |
| InputEntity.OperationInput.constructor | QuickQuarantine/src/com/github/quickquarantine/entity/OperationInput.java:29-31 | no payload, tag 0 |
| InputEntity.OperationInput.InitListInput | QuickQuarantine/src/com/github/quickquarantine/entity/OperationInput.java:33-38 | a fresh input holding the list, tagged list |
| InputEntity.OperationInput.InitMapInput | QuickQuarantine/src/com/github/quickquarantine/entity/OperationInput.java:40-45 | a fresh input holding the map, tagged map |
| InputEntity.OperationInput.InitObjectInput | QuickQuarantine/src/com/github/quickquarantine/entity/OperationInput.java:47-52 | a fresh input holding the object, tagged object |
| InputEntity.OperationInput.SetList | QuickQuarantine/src/com/github/quickquarantine/entity/OperationInput.java:54-56 | only the list changes |
| InputEntity.OperationInput.SetMap | QuickQuarantine/src/com/github/quickquarantine/entity/OperationInput.java:58-60 | only the map changes |
| InputEntity.OperationInput.SetO | QuickQuarantine/src/com/github/quickquarantine/entity/OperationInput.java:62-64 | only the object changes |
| InputEntity.OperationInput.SetForm | QuickQuarantine/src/com/github/quickquarantine/entity/OperationInput.java:66-68 | only the tag changes |
| Security.FirstMatch | QuickQuarantine/src/com/github/quickquarantine/utils/SecurityUtils.java:215-217 | `find()` succeeds at the leftmost position where the pattern matches the rest of the text, and fails only if no position matches |
| Security.GetFirstStr | QuickQuarantine/src/com/github/quickquarantine/utils/SecurityUtils.java:215-222 | the result is the leftmost match that ends where the text less its final line terminator ends; null only when there is none |
| Security.ClassNameOf | QuickQuarantine/src/com/github/quickquarantine/thread/OperationThreadPool.java:234-235 | removing the `.identifier` before the end (or before a final line terminator) keeps what precedes it and the terminator; with no match the text is unchanged |
| Security.DollarEndsAtBody | QuickQuarantine/src/com/github/quickquarantine/utils/SecurityUtils.java:24-32 | a match that `$` lets end anywhere ends where the text less its final line terminator ends |
| Security.FirstMatchIs | QuickQuarantine/src/com/github/quickquarantine/utils/SecurityUtils.java:215-217 | `find()` succeeds at any match with no match before it |
| Security.HandlerIdSplit | QuickQuarantine/src/com/github/quickquarantine/thread/OperationThreadPool.java:234-236 | for a handler id `P.m` with `m` an identifier, the class name is `P` and the method name is `m` |
| Security.HandlerIdLineEnd | QuickQuarantine/src/com/github/quickquarantine/thread/OperationThreadPool.java:234-236 | for `P.m` followed by one line terminator, the class name is `P` followed by that terminator and the method name is `m` |
| Security.ClassMatchOfId | QuickQuarantine/src/com/github/quickquarantine/thread/OperationThreadPool.java:234-235 | in `P.m` the class-name pattern first matches at the last dot |
| Security.MethodMatchOfId | QuickQuarantine/src/com/github/quickquarantine/thread/OperationThreadPool.java:236 | in `P.m` the method-name pattern first matches just after the last dot |
| Security.NoDotClassName | QuickQuarantine/src/com/github/quickquarantine/thread/OperationThreadPool.java:234-236 | an id without a dot is its own class name, and its own method name when it is an identifier |
| Security.GetLetter | QuickQuarantine/src/com/github/quickquarantine/utils/SecurityUtils.java:133-143 | range 0 gives 0..8, range 1 'A'..'Z', range 2 'a'..'z'; any other range throws |
| Security.GetLetterCovers | QuickQuarantine/src/com/github/quickquarantine/utils/SecurityUtils.java:133-143 | every value of each range is drawn for some random value |
| Security.SaltGroupAt | QuickQuarantine/src/com/github/quickquarantine/utils/SecurityUtils.java:40 | a `{d}` or `{dd}` group starts with '{' and denotes at most 99 |
| Security.FirstSaltGroup | QuickQuarantine/src/com/github/quickquarantine/utils/SecurityUtils.java:96-97 | the salt matcher finds the leftmost group |
| Security.SaltCount | QuickQuarantine/src/com/github/quickquarantine/utils/SecurityUtils.java:96-101 | the requested length is the number in the first group, at most 99 |
| Security.RangeList | QuickQuarantine/src/com/github/quickquarantine/utils/SecurityUtils.java:102-111 | each range is listed iff its marker occurs in the pattern text |
| Security.SaltCharInMarkedClass | QuickQuarantine/src/com/github/quickquarantine/utils/SecurityUtils.java:116-122 | whatever the random draws, each salt character is in a class the pattern marks, and is never '9' |
| Security.GetSalt | QuickQuarantine/src/com/github/quickquarantine/utils/SecurityUtils.java:95-125 | no group throws `IllegalStateException`; a non-zero length with no marker throws `IllegalArgumentException`; otherwise exactly `n` characters, each from a marked class |
| Security.SaltCountExamples | QuickQuarantine/src/com/github/quickquarantine/utils/SecurityUtils.java:92 | the documented patterns "[0-9A-Za-z]{4}", "[0-9]{6}" and "[A-Za-z]{7}" ask for 4, 6 and 7 characters; one without a group asks for none |
| Builder.PathDeterminesNames | QuickQuarantine/src/com/github/quickquarantine/FactoryBuilder.java:25 | for file names without a separator, equal paths mean equal directory and file names |
| Builder.PathOf | QuickQuarantine/src/com/github/quickquarantine/FactoryBuilder.java:25 | the path is the directory name (or "null"), then "/", then the file name (or "null") |
| Builder.FactoryBuilder.constructor | QuickQuarantine/src/com/github/quickquarantine/FactoryBuilder.java:8-15 | the default names, and the path made of them |
| Builder.FactoryBuilder.SetPath | QuickQuarantine/src/com/github/quickquarantine/FactoryBuilder.java:22-26 | both names are replaced and the path follows them, a null name printed as "null" |
| Builder.FactoryBuilder.GetPath | QuickQuarantine/src/com/github/quickquarantine/FactoryBuilder.java:36-38 | the path is always the directory name, "/" and the file name |
| Config.KeysDistinct | QuickQuarantine/src/com/github/quickquarantine/Factory.java:35-83 | the seven configuration keys are different |
| Config.SpecMap | QuickQuarantine/src/com/github/quickquarantine/Factory.java:136-151 | a loaded specification is a map with exactly the seven keys |
| Config.CheckEmpty | QuickQuarantine/src/com/github/quickquarantine/Factory.java:172-177 | missing or empty values fail with the missing-item exception, and only those; others are trimmed, so an all-blank value passes as "" |
| Config.IntField | QuickQuarantine/src/com/github/quickquarantine/Factory.java:137-140 | an integer field loads iff it is present and its trimmed text parses; the failures are missing-item or `NumberFormatException` |
| Config.ListField | QuickQuarantine/src/com/github/quickquarantine/Factory.java:148-149 | a list field loads iff it is present, as the '\|'-split of its trimmed text |
| Config.BuildSpec | QuickQuarantine/src/com/github/quickquarantine/Factory.java:136-151 | one configuration file loads iff every field is present and the four integers parse |
| Config.BuildSpecFields | QuickQuarantine/src/com/github/quickquarantine/Factory.java:137-151 | each loaded field is the parse or split of its trimmed text; the flag is false exactly when it trims to "0" |
| Config.ConfigRoundTrip | QuickQuarantine/src/com/github/quickquarantine/Factory.java:136-151 | a specification written out as a configuration file loads back unchanged |
| Config.AllowFlag | QuickQuarantine/src/com/github/quickquarantine/Factory.java:141-145 | the time-out flag is true unless its trimmed text is "0" |
| Config.EntrySpec | QuickQuarantine/src/com/github/quickquarantine/Factory.java:124-128 | a manifest entry's file is looked up under "dir/file"; a missing one fails with the not-found exception naming the path |
| Config.LoadedIntoStep | QuickQuarantine/src/com/github/quickquarantine/Factory.java:152 | putting one more loaded entry in keeps the map equal to the old map plus the loaded entries |
| Config.Factory.constructor | QuickQuarantine/src/com/github/quickquarantine/Factory.java:88-93 | before loading, the map is empty and nothing is loaded |
| Config.Factory.Load | QuickQuarantine/src/com/github/quickquarantine/Factory.java:95-106 | `isBuilder` is set iff the manifest exists and every entry loads; then every entry's specification is in the map. A failed load keeps the entries loaded before the failing one, which the pools later read without checking `isBuilder`; a missing manifest leaves the map as it was |
| Config.Factory.GetResourceFromProperties | QuickQuarantine/src/com/github/quickquarantine/Factory.java:117-155 | a missing manifest fails and changes nothing; otherwise the entries loaded before the first failure are stored, and the error is that entry's own |
| Config.Factory.LoadManifest | QuickQuarantine/src/com/github/quickquarantine/Factory.java:120-154 | success iff every entry loads; the stored map is the old one plus exactly the loaded entries |
| Config.Factory.GetThreadPoolOperationMap | QuickQuarantine/src/com/github/quickquarantine/Factory.java:113-115 | null exactly for an operation that was never loaded, otherwise its stored specification |
| Operation1.Sub1Spec | QuickQuarantine/src/com/github/quickquarantine/test/Operation1.java:11-24 | `sub1` never returns null; it throws only NPE, IOOBE or CCE; a null or non-list input throws NPE; a success has code "success" and no operation or reason |
| Operation1.Sub1Succeeds | QuickQuarantine/src/com/github/quickquarantine/test/Operation1.java:13-22 | `sub1` succeeds iff the list has at least three elements, the first two strings (or null) and the third an integer (or null); the result is the three printed in a row, later elements ignored |
| Operation1.Sub1Concatenates | QuickQuarantine/src/com/github/quickquarantine/test/Operation1.java:14-22 | two strings and an integer give their concatenation with the integer in decimal |
| Operation1.Sub1Example | QuickQuarantine/src/com/github/quickquarantine/test/IQuickQuarantineTest.java:85-91 | `["a", "b", 1]` gives a success holding "ab1" |
| Operation1.Sub2Spec | QuickQuarantine/src/com/github/quickquarantine/test/Operation1.java:26-31 | `sub2` always returns a result with code "error", the timeout reason, and no operation or result |
| Operation1.Sub1 | QuickQuarantine/src/com/github/quickquarantine/test/Operation1.java:11-24 | the method's outcome is `Sub1Spec` of its input, and a returned result is a new object |
| Operation1.Sub2 | QuickQuarantine/src/com/github/quickquarantine/test/Operation1.java:26-31 | the method returns a new object whose fields are those of `Sub2Spec` |
| Reflection.InvokeSpec | QuickQuarantine/src/com/github/quickquarantine/utils/SecurityUtils.java:295-363 | never returns null; an unknown class gives `ClassNotFoundException`; a class whose initialiser fails raises an `Error`, and only such a class does; returning a result means the class initialised and declares the method |
| Reflection.InvokeStatic | QuickQuarantine/src/com/github/quickquarantine/utils/SecurityUtils.java:327-363 | a static handler's result is passed through untouched; any handler exception becomes `InvocationTargetException`; a null return becomes the "returns null" exception |
| Reflection.InvokeResultCode | QuickQuarantine/src/com/github/quickquarantine/utils/SecurityUtils.java:356-363 | a result handed back by the call has a code of null, "error" or "success" |
| Reflection.MissingMethod | QuickQuarantine/src/com/github/quickquarantine/utils/SecurityUtils.java:298-307 | a method name the class does not declare fails with both names in the message; a null name fails with NPE unless the class declares no methods at all |
| Reflection.InvokeBody | QuickQuarantine/src/com/github/quickquarantine/utils/SecurityUtils.java:334-337 | invoking a handler body has the body's outcome |
| Reflection.EchoStaticMethodByClass | QuickQuarantine/src/com/github/quickquarantine/utils/SecurityUtils.java:295-363 | the scan over the declared methods and the checks after it have exactly the outcome `InvokeSpec` gives |
| ThreadPool.RoutingResult | QuickQuarantine/src/com/github/quickquarantine/thread/OperationThreadPool.java:148-157 | building the routing table fails, with `ArrayIndexOutOfBoundsException`, iff there are fewer handler ids than sub-operations |
| ThreadPool.RoutingKeys | QuickQuarantine/src/com/github/quickquarantine/thread/OperationThreadPool.java:151-155 | the routed sub-operations are exactly the configured ones, at most one entry per list position |
| ThreadPool.Routing | QuickQuarantine/src/com/github/quickquarantine/thread/OperationThreadPool.java:151-155 | every routed sub-operation is one of the configured ones, and it is routed to one of the handler ids at the configured positions |
| ThreadPool.RoutingLastWins | QuickQuarantine/src/com/github/quickquarantine/thread/OperationThreadPool.java:153-155 | a sub-operation is routed to the handler at its last position |
| ThreadPool.RoutingIgnoresExtra | QuickQuarantine/src/com/github/quickquarantine/thread/OperationThreadPool.java:152-155 | handler ids past the number of sub-operations change nothing |
| ThreadPool.SetOperationList | QuickQuarantine/src/com/github/quickquarantine/thread/OperationThreadPool.java:148-157 | the loop builds exactly `RoutingResult` of the two lists |
| ThreadPool.AddOne | QuickQuarantine/src/com/github/quickquarantine/thread/OperationThreadPool.java:172 | `addAndGet(1)` adds one and wraps at the top of `int` |
| ThreadPool.ThreadNamesDistinct | QuickQuarantine/src/com/github/quickquarantine/thread/OperationThreadPool.java:172 | threads numbered differently (non-negative counts) get different names |
| ThreadPool.FirstThreadName | QuickQuarantine/src/com/github/quickquarantine/thread/OperationThreadPool.java:167-172 | a new factory's first thread is "OperationThreadFactory-1" |
| ThreadPool.ThreadName | QuickQuarantine/src/com/github/quickquarantine/thread/OperationThreadPool.java:172 | a thread name is "OperationThreadFactory-" followed by the count, in unpadded decimal digits for a non-negative count and with a minus sign for a negative one |
| ThreadPool.OperationThreadFactory.constructor | QuickQuarantine/src/com/github/quickquarantine/thread/OperationThreadPool.java:167 | the count starts at 0 |
| ThreadPool.OperationThreadFactory.NewThread | QuickQuarantine/src/com/github/quickquarantine/thread/OperationThreadPool.java:169-175 | the count goes up by one and the thread is named with the new count |
| ThreadPool.ThreadPoolExecutor.constructor | QuickQuarantine/src/com/github/quickquarantine/thread/OperationThreadPool.java:140 | the executor keeps the parameters it was given; core time-out starts off |
| ThreadPool.ThreadPoolExecutor.AllowCoreThreadTimeOut | QuickQuarantine/src/com/github/quickquarantine/thread/OperationThreadPool.java:141 | the flag takes the configured value |
| ThreadPool.ThreadPoolExecutor.Execute | QuickQuarantine/src/com/github/quickquarantine/impl/IQuickQuarantine.java:37 | a task that records a result appends exactly its expected result, as a new object not among the earlier results, and counts the latch down; a task whose handler raises an `Error` changes neither the list nor the latch |
| ThreadPool.AcquireSpec | QuickQuarantine/src/com/github/quickquarantine/thread/OperationThreadPool.java:95-121 | an unconfigured operation fails with the unknown-operation exception; a routing table comes back iff one was asked for, with the configured sub-operations as keys |
| ThreadPool.OperationThreadPool.constructor | QuickQuarantine/src/com/github/quickquarantine/thread/OperationThreadPool.java:82 | the registry starts empty |
| ThreadPool.OperationThreadPool.GetOperationList | QuickQuarantine/src/com/github/quickquarantine/thread/OperationThreadPool.java:95-121 | the outcome is `AcquireSpec`'s; the list is the pool (and the routing table); an existing pool is reused unchanged; a new one is fresh, configured from the specification and the only change to the registry (`RegistryStep`) |
| ThreadPool.OperationThreadPool.CreateThreadPool | QuickQuarantine/src/com/github/quickquarantine/thread/OperationThreadPool.java:127-145 | parameters the JDK refuses throw `IllegalArgumentException` and store nothing; otherwise a fresh configured pool is stored under the operation |
| ThreadPool.SecondRequestReuses | QuickQuarantine/src/com/github/quickquarantine/thread/OperationThreadPool.java:106-113 | once a pool exists, asking again gives the same outcome; a sub-operation request never gets a routing table |
| ThreadPool.Normalise | QuickQuarantine/src/com/github/quickquarantine/thread/OperationThreadPool.java:238-258 | a result with a code is kept and stamped; a throw, a null return or a missing code becomes a new "error" result whose reason is the incident text of the exception; an `Error` records nothing |
| ThreadPool.IncidentTextParts | QuickQuarantine/src/com/github/quickquarantine/thread/OperationThreadPool.java:254-255 | the reason of a failed run is "案发现场信息:[ ", the exception's text, and " ]", so the exception text can be read back off it |
| ThreadPool.NullResultTextParts | QuickQuarantine/src/com/github/quickquarantine/thread/OperationThreadPool.java:241 | the null-return exception names the sub-operation after "返回业务:[ 业务=" and prints the result as "null" |
| ThreadPool.MissingCodeTextParts | QuickQuarantine/src/com/github/quickquarantine/thread/OperationThreadPool.java:246 | the missing-code exception names the sub-operation and then holds the result's own `toString` text |
| ThreadPool.RunStampedAndCoded | QuickQuarantine/src/com/github/quickquarantine/thread/OperationThreadPool.java:230-263 | every recorded result carries its sub-operation and a code of "error" or "success", never null |
| ThreadPool.RunRecordsNothing | QuickQuarantine/src/com/github/quickquarantine/thread/OperationThreadPool.java:241-262 | a run records nothing exactly when its handler id names a class that fails to initialise |
| ThreadPool.RunSucceeded | QuickQuarantine/src/com/github/quickquarantine/thread/OperationThreadPool.java:238-248 | a run is recorded as a success only if a routed handler returned a successful result, which is then kept as it was apart from the stamp |
| ThreadPool.RunHandlerId | QuickQuarantine/src/com/github/quickquarantine/thread/OperationThreadPool.java:234-238 | for handler id `P.m` the worker invokes method `m` of class `P` |
| ThreadPool.RunHandlerIdLineEnd | QuickQuarantine/src/com/github/quickquarantine/thread/OperationThreadPool.java:234-238 | for `P.m` followed by one line terminator the worker invokes method `m` of the class named `P` followed by that terminator |
| ThreadPool.OperationThread.constructor | QuickQuarantine/src/com/github/quickquarantine/thread/OperationThreadPool.java:222-228 | the task keeps its operation, handler id, input, results list and latch |
| ThreadPool.OperationThread.Run | QuickQuarantine/src/com/github/quickquarantine/thread/OperationThreadPool.java:230-263 | when the task records a result, exactly one new result is appended, equal to `RunSpec` of the task, the earlier results are untouched, and the latch goes down once; when the handler raises an `Error`, the `finally` block throws `NullPointerException` and neither the list nor the latch changes |
| ThreadPool.OperationThread.Attempt | QuickQuarantine/src/com/github/quickquarantine/thread/OperationThreadPool.java:231-255 | the try and catch blocks leave a new or returned result whose fields, once stamped, are the task's expected result; an `Error` leaves no result |
| Engine.Lookup | QuickQuarantine/src/com/github/quickquarantine/impl/IQuickQuarantine.java:37 | `map.get` is null exactly for an unrouted sub-operation |
| Engine.Submit | QuickQuarantine/src/com/github/quickquarantine/impl/IQuickQuarantine.java:37 | the list only grows, by new objects; a task that records a result extends the results list by its expected result and counts the latch down; one that does not changes nothing |
| Engine.SubmitAt | QuickQuarantine/src/com/github/quickquarantine/impl/IQuickQuarantine.java:35-38 | after the `i`-th submission the latch is the number of tasks less the results, and the list records the first `i + 1` runs exactly when each of them records a result |
| Engine.RunAll | QuickQuarantine/src/com/github/quickquarantine/impl/IQuickQuarantine.java:33-41 | fewer inputs than sub-operations fails with IOOBE; if every task records a result, the `k`-th result is a distinct new object holding the run of the `k`-th sub-operation on the `k`-th input; otherwise the wait never ends |
| Engine.AllRecordIffInitialise | QuickQuarantine/src/com/github/quickquarantine/thread/OperationThreadPool.java:241-262 | every task records a result exactly when no routed handler id names a class that fails to initialise |
| Engine.AllRecordStep | QuickQuarantine/src/com/github/quickquarantine/impl/IQuickQuarantine.java:35-38 | one more task keeps every result recorded exactly when it records its own |
| Engine.EntryOrder | QuickQuarantine/src/com/github/quickquarantine/impl/IQuickQuarantine.java:55 | the entry set is iterated once per routed sub-operation |
| Engine.DoAllOfMinimumOperation | QuickQuarantine/src/com/github/quickquarantine/impl/IQuickQuarantine.java:27-42 | registry failures pass through; the registry changes as `RegistryStep` says; too few inputs fail with IOOBE; otherwise, if every task records a result, one result per named sub-operation, in order, each the run of that sub-operation through the routing table, and if one does not, the request blocks |
| Engine.DoMaximumOperation | QuickQuarantine/src/com/github/quickquarantine/impl/IQuickQuarantine.java:46-63 | the registry changes as `RegistryStep` says; every routed sub-operation runs exactly once, the `i`-th in iteration order on the `i`-th input; too few inputs fail with IOOBE; a task that records nothing blocks the request |
| Engine.DoMinimumOperation | QuickQuarantine/src/com/github/quickquarantine/impl/IQuickQuarantine.java:66-76 | registry failures pass through; the registry changes as `RegistryStep` says; otherwise the one new result is the run of the given handler id on the input, or the request blocks when the handler's class fails to initialise |
| Engine.Sub1EndToEnd | QuickQuarantine/src/com/github/quickquarantine/test/IQuickQuarantineTest.java:84-91 | through the worker, `Operation1.sub1` on `["a", "b", 1]` is recorded as a success holding "ab1" |
| Engine.Sub2EndToEnd | QuickQuarantine/src/com/github/quickquarantine/test/Operation1.java:26-31 | through the worker, `sub2` is recorded as a failure with the timeout reason, whatever the input |
| Engine.Sub1ObjectInputFails | QuickQuarantine/src/com/github/quickquarantine/test/IQuickQuarantineTest.java:30 | `sub1` on an object input is recorded as a failure naming `InvocationTargetException` |
| Engine.UnroutedFails | QuickQuarantine/src/com/github/quickquarantine/impl/IQuickQuarantine.java:37 | a sub-operation without a routing entry is recorded as failed with a `NullPointerException` |
| Engine.InitFailureRecordsNothing | QuickQuarantine/src/com/github/quickquarantine/thread/OperationThreadPool.java:241-262 | a handler id `P.m` whose class `P` fails to initialise records no result |

## Left out

- Concurrency. The executor runs each task to completion when it is
  submitted. The JDK pool's worker threads, work queue and rejection handler
  are not modelled (`OperationThreadPool.java:66-77`). Nor are blocking,
  interruption, the `synchronized` block, or the race between
  `containsKey` and `put` that can create two pools for one operation.
- Engine.DoAllOfMinimumOperation: with real threads the results list is in
  completion order. Only the multiset of results is then what the source
  guarantees. The model's per-index statement relies on sequential execution.
- Engine.DoMaximumOperation: the iteration order of the routing table is
  some enumeration of its keys. It is not `HashMap`'s hash order. The
  pairing of the `i`-th entry with the `i`-th input is proved for every
  order.
- Engine.RunAll: when the inputs run out part-way, the source has already
  run the earlier tasks, and their results are discarded with the exception.
  The model checks the number of inputs before submitting anything. The two
  differ only in the discarded list, the latch left behind and the handlers'
  logging, none of which the caller sees.
- Logging and console output (`LOGGING`, `System.out`).
- How a resource is found. The class path is a map from path to properties
  file. `Properties.load` parsing (comments, escapes, line continuations)
  and the resource URL used only for logging are not modelled.
- Config.Factory.Load: the static block runs once, when the class is first
  loaded. Here it is an explicit call on a builder state. A `setPath` after
  the class is loaded therefore has no effect in the source. The model
  leaves that to the caller.
- Reflection.InvokeSpec covers only the path the worker takes: static, one
  `OperationInput` parameter, result type `OperationResult`. The other
  `echo…` variants are not called by the core. Neither are `getObject`,
  `getFieldValue`, `setFieldValue`, `contains` and
  `getFirstStrIgnoreCase`.
- Reflection.InvokeBody: handler bodies are a closed set. Each one returns
  a new result, so a handler returning a shared or cached object (aliasing)
  is not modelled.
- Lang.ExceptionText: messages the JDK builds itself are left out. These are
  the index and size in `IndexOutOfBoundsException` and
  `ArrayIndexOutOfBoundsException`, the types in `ClassCastException`, the
  text in `NumberFormatException`, and the helpful message JDK 14 and later
  give a `NullPointerException`. An incident reason built from them is
  therefore shorter than the source's.
- Engine.RunAll: `input.get(i)` on too short a list throws the exception of
  the caller's list type. The model uses `IndexOutOfBoundsException`, the
  type every `List` implementation throws or extends.
- Errors. The only `Error` modelled is the one a handler class that fails to
  initialise raises; `ExceptionInInitializerError` and the
  `NoClassDefFoundError` of later attempts are not told apart. Other errors
  (out of memory, stack overflow, an `Error` thrown by a handler body) are
  not modelled.
- ThreadPool.OperationThread.Run: the `NullPointerException` the `finally`
  block throws after an `Error` goes to the pool's worker thread, which dies;
  the model returns it to the pool and drops it there.
- Lang.ParseInt accepts only ASCII digits. `Integer.parseInt` also accepts
  other Unicode decimal digits.
- Security.GetSalt: the random generator is a parameter `draws`, and
  `nextInt(bound)` is `draws(k) % bound`. The distribution of
  `java.util.Random` is not modelled.
- Null collections. The lists of sub-operations and inputs, and the names
  in them, are never null here. A null list's `NullPointerException` is not
  modelled. Null inputs inside the list are.
- The thread factory is not called by the sequential executor. Only its
  numbering and naming are modelled.
- Java objects other than strings and integers are modelled only through
  the text their `toString` prints.
- `Serializable` and `serialVersionUID`.
- `QuickQuarantine.java`, the interface, is not part of this model (its
  methods are those of `Engine`).
