# Mock tutorial framework — a Dafny model of its stub tables and dispatch rules

The repository is a small Java mocking framework. Around its bytecode rewriting
and proxy creation sits a core of in-memory stub tables, invocation ledgers and
resolution rules. These decide what a mocked call answers and what a
verification concludes. This project models that core in Dafny and proves
properties of the model.

- **v3 API** (`V3Factory`, `V3Mock`, `ObjenesisEngine`).
  - Each mock owns an append-only list of behaviours and an append-only ledger
    of invocation records.
  - `findBehavior` returns the earliest matching behaviour; `countInvocations`
    counts the matching records.
  - The `when`/`verify` builders write behaviours and compare counts.
  - The proxy handlers answer `hashCode`/`equals`/`toString` themselves. They
    record every other call, then throw or return the matching behaviour, or
    answer the default of the return type.
- **Redirection tables** (`Redirection`, `StaticMocker`, `ConstructorMocker`,
  `PrivateMethodMocker`, `StaticMockHandler`, `StaticMockBuilder`).
  - Each table is a nested map: owner, then key, then stored answer.
  - A stored answer is tagged when it is stored: `Plain`, `Thrown` or `Fn`.
  - The handlers answer `Return`, `Raise` or `Proceed`. `Proceed` is the
    `PROCEED` sentinel, so it is provably different from every stored answer.
- **Legacy stubbing** (`MethodInterceptor`, `MockitoAdapter`). Three shared maps
  are keyed by the default value a mock returned for a call. The adapter's
  handler consults them first, then its own per-name map, then answers the
  default.
- **Utilities** (`MockSettings`, `Jdk21Optimizer`).
  - `MockSettings` is a flag builder.
  - `Jdk21Optimizer` parses the Java version string and gates the JDK 21
    optimisations.
- **Sample domain** (`UserModel`, `ManualMockUserService`, `UserController`).
  - The user record: structural equality, hash code and score formula.
  - The hand-written user service.
  - The controller over that service.

Stateful Java classes are Dafny classes whose methods state their whole new
state with `modifies`/`old`. The loops of the source (`findBehavior`,
`countInvocations`, `matches`, `constructorKey`, `findAllUsers`,
`getSaveCount`) are `while` loops proved against specification functions
(`FirstMatch`, `CountMatching`, `SameCall`, `KeyOf`, `IsListing`, the multiset
of saves). The properties of those functions are proved as lemmas. Pure
branching code is functions.

Java `null` is `None` (or `Null` among `Value`s). Object identity is a `nat`.
A `Throwable` is an `Exn` value whose `id` is its identity. A `Class` is a
`JClass` carrying its `getName()`.

Where the code and its documentation disagree, the model follows the code.
- `applyJdk21Optimizations` documents `true`/`false`. For a null class it
  throws a `NullPointerException` on both paths: the early-return path logs
  `classToOptimize.getName()`, and so does the `catch` handler that the first
  `getName()` call would reach.
- `MockitoAdapter`'s handler tests only the method name for `equals`,
  `hashCode` and `toString`, whatever the parameters. `equals` therefore reads
  `args[0]` and fails on a null or empty array.

## Model

| member | source | states |
|---|---|---|
| Values.Snapshot | mock-core/src/main/java/com/mocktutorial/core/v3/MockFactory.java:139-142 | the copy `args.clone()` takes: null for a null array, otherwise the array's contents at the moment of the call |
| Values.ZeroOf | mock-core/src/main/java/com/mocktutorial/core/v3/ObjenesisEngine.java:66-75 | the default of a primitive type is a zero value of exactly that type |
| Values.ZeroIsUnique | mock-core/src/main/java/com/mocktutorial/core/v3/ObjenesisEngine.java:66-75 | there is only one zero per primitive type, so the two default tables can be compared |
| Values.WrapInt32 | mock-basics/src/main/java/com/mocktutorial/basics/models/User.java:47-50 | Java `int` narrowing: a 32-bit value congruent to the input modulo 2^32, equal to it when it fits |
| Values.ToHexString | mock-core/src/main/java/com/mocktutorial/core/v3/ObjenesisEngine.java:55-56 | `Integer.toHexString`: digits that decode to the value read as an unsigned 32-bit number, with no leading zero |
| Values.HexRoundTrip | mock-core/src/main/java/com/mocktutorial/core/v3/ObjenesisEngine.java:55-56 | the `Integer.toHexString` digits decode back to the number and have no leading zero |
| Values.ToHexStringInjective | mock-core/src/main/java/com/mocktutorial/core/v3/ObjenesisEngine.java:55-56 | two different identity hashes give different hex strings |
| V3Factory.SameCall | mock-core/src/main/java/com/mocktutorial/core/v3/MockFactory.java:92-102 | the shared `matches` rule holds iff the names are equal and the argument sequences are equal, a null array reading as empty |
| V3Factory.NullArgsMatchEmpty | mock-core/src/main/java/com/mocktutorial/core/v3/MockFactory.java:94-96 | a null argument array and an empty one match each other, in both directions |
| V3Factory.MatchCall | mock-core/src/main/java/com/mocktutorial/core/v3/MockFactory.java:143-152 | the element-by-element comparison loop returns exactly `SameCall` |
| V3Factory.MockBehavior.Matches | mock-core/src/main/java/com/mocktutorial/core/v3/MockFactory.java:92-102 | `MockBehavior.matches` is true iff the behaviour covers the call |
| V3Factory.InvocationRecord.Matches | mock-core/src/main/java/com/mocktutorial/core/v3/MockFactory.java:143-152 | `InvocationRecord.matches` is true iff the record covers the call |
| V3Factory.FirstMatchIndex | mock-core/src/main/java/com/mocktutorial/core/v3/MockFactory.java:49-54 | the earliest matching position: no earlier behaviour matches and the one found does |
| V3Factory.FirstMatch | mock-core/src/main/java/com/mocktutorial/core/v3/MockFactory.java:46-55 | none iff no behaviour matches; otherwise a matching behaviour from the list |
| V3Factory.CountMatching | mock-core/src/main/java/com/mocktutorial/core/v3/MockFactory.java:116-124 | the number of matching records is at most the ledger's length |
| V3Factory.EarliestRegistrationWins | mock-core/src/main/java/com/mocktutorial/core/v3/MockFactory.java:40-53 | once a call has a matching behaviour, registering more never changes what it finds, so a second `thenReturn` does not overwrite the first |
| V3Factory.AppendedBehaviorFound | mock-core/src/main/java/com/mocktutorial/core/v3/MockFactory.java:40-53 | a matching behaviour appended to a list where nothing matched is the one found |
| V3Factory.AppendedOtherBehavior | mock-core/src/main/java/com/mocktutorial/core/v3/MockFactory.java:40-53 | appending a behaviour that does not match a call leaves that call's lookup unchanged |
| V3Factory.CountAppend | mock-core/src/main/java/com/mocktutorial/core/v3/MockFactory.java:108-124 | recording one call adds one to the count of exactly the descriptions it matches |
| V3Factory.CountAfterRepeats | mock-core/src/main/java/com/mocktutorial/core/v3/MockFactory.java:108-124 | after k identical recordings the count of that description has grown by exactly k, and other counts are unchanged |
| V3Factory.MockFactory.constructor | mock-core/src/main/java/com/mocktutorial/core/v3/MockFactory.java:14-18 | all three registries start empty |
| V3Factory.MockFactory.Create | mock-core/src/main/java/com/mocktutorial/core/v3/MockFactory.java:20-33 | the instrumentation path yields no mock; a mock that exists is remembered for its class; the other registries are unchanged |
| V3Factory.MockFactory.RegisterBehavior | mock-core/src/main/java/com/mocktutorial/core/v3/MockFactory.java:38-41 | a null mock or behaviour changes nothing; otherwise the behaviour is appended to that mock's list, and every other mock's list is unchanged |
| V3Factory.MockFactory.Register | mock-core/src/main/java/com/mocktutorial/core/v3/MockFactory.java:57-63 | a configuration that is a behaviour is registered like `registerBehavior`; anything else is ignored |
| V3Factory.MockFactory.FindBehavior | mock-core/src/main/java/com/mocktutorial/core/v3/MockFactory.java:46-55 | the loop returns `FirstMatch` of the mock's behaviours, and none for a mock without a list |
| V3Factory.MockFactory.RecordInvocation | mock-core/src/main/java/com/mocktutorial/core/v3/MockFactory.java:108-111 | appends one record holding a snapshot of the arguments to this mock's ledger only |
| V3Factory.MockFactory.CountInvocations | mock-core/src/main/java/com/mocktutorial/core/v3/MockFactory.java:116-124 | the counting loop returns `CountMatching` of the mock's ledger, and 0 for a mock never recorded |
| V3Factory.MockFactory.ClearAll | mock-core/src/main/java/com/mocktutorial/core/v3/MockFactory.java:65-68 | empties the class and behaviour registries and keeps the invocation records |
| V3Factory.MockFactory.ClearInvocations | mock-core/src/main/java/com/mocktutorial/core/v3/MockFactory.java:129-131 | empties only the invocation records |
| V3Factory.RecordThenOverwrite | mock-core/src/main/java/com/mocktutorial/core/v3/MockFactory.java:139-142 | overwriting the caller's array after recording does not change what the ledger holds |
| V3Mock.WhenBuilder.constructor | mock-core/src/main/java/com/mocktutorial/core/v3/Mock.java:32-36 | the builder remembers the mock, method name and arguments |
| V3Mock.WhenBuilder.ThenReturn | mock-core/src/main/java/com/mocktutorial/core/v3/Mock.java:40-44 | appends exactly one behaviour (that name, those arguments, the value, no throwable) and returns the same builder |
| V3Mock.WhenBuilder.ThenThrow | mock-core/src/main/java/com/mocktutorial/core/v3/Mock.java:48-52 | appends exactly one behaviour returning null and throwing `t`, and returns the same builder |
| V3Mock.Verdict | mock-core/src/main/java/com/mocktutorial/core/v3/Mock.java:70-77 | without a method it is an `IllegalStateException`; otherwise it passes iff the count equals the expected count, and fails with an `AssertionError` naming both counts |
| V3Mock.VerifyBuilder.constructor | mock-core/src/main/java/com/mocktutorial/core/v3/Mock.java:56-62 | no method is chosen yet and one call is expected |
| V3Mock.VerifyBuilder.Method | mock-core/src/main/java/com/mocktutorial/core/v3/Mock.java:63-67 | chooses the call to count and keeps the expected count |
| V3Mock.VerifyBuilder.Check | mock-core/src/main/java/com/mocktutorial/core/v3/Mock.java:70-77 | the check's outcome is `Verdict` on the mock's ledger; it changes nothing and returns the same builder |
| V3Mock.VerifyBuilder.Once | mock-core/src/main/java/com/mocktutorial/core/v3/Mock.java:68 | sets the expected count to 1, then checks and returns the same builder |
| V3Mock.VerifyBuilder.Times | mock-core/src/main/java/com/mocktutorial/core/v3/Mock.java:69 | sets the expected count to n, then checks and returns the same builder |
| V3Mock.VerifyAfterRepeatedCalls | mock-core/src/main/java/com/mocktutorial/core/v3/Mock.java:68-77 | after k identical calls `times(k)` passes and any other expected count fails, reporting the actual count k |
| V3Mock.TwoCallsScenario | mock-core/src/test/java/com/mocktutorial/core/v3/MockInterfaceTest.java:56-63 | two recorded calls pass `times(2)` and make `once()` fail with expected 1 and actual 2 |
| ObjenesisEngine.DefaultValue | mock-core/src/main/java/com/mocktutorial/core/v3/ObjenesisEngine.java:65-76 | an unstubbed call's default: the zero of a primitive return type, null for every other type |
| ObjenesisEngine.Respond | mock-core/src/main/java/com/mocktutorial/core/v3/ObjenesisEngine.java:60-76 | a found behaviour's throwable is thrown if present, else its value is returned; with nothing found the default is returned |
| ObjenesisEngine.ObjectMethodReply | mock-core/src/main/java/com/mocktutorial/core/v3/ObjenesisEngine.java:49-57 | `hashCode` is the identity hash, `equals` is identity with the proxy, `toString` is `MockProxy(Name)@hex` |
| ObjenesisEngine.EqualsIsIdentity | mock-core/src/main/java/com/mocktutorial/core/v3/ObjenesisEngine.java:52-53 | a proxy's `equals` is true exactly for the proxy itself |
| ObjenesisEngine.ToStringTellsProxiesApart | mock-core/src/main/java/com/mocktutorial/core/v3/ObjenesisEngine.java:55-56 | proxies with different identity hashes print differently |
| ObjenesisEngine.Handle | mock-core/src/main/java/com/mocktutorial/core/v3/ObjenesisEngine.java:46-77 | `Object` methods are answered directly and not recorded; every other call is recorded first, then answered by `Respond` on the earliest match; behaviours are never changed |
| ObjenesisEngine.Invoke | mock-core/src/main/java/com/mocktutorial/core/v3/ObjenesisEngine.java:46-77 | the interface handler follows exactly that dispatch order |
| ObjenesisEngine.Intercept | mock-core/src/main/java/com/mocktutorial/core/v3/ObjenesisEngine.java:85-116 | the class-proxy interceptor follows exactly the same order and defaults |
| ObjenesisEngine.StubbedCallAnswers | mock-core/src/main/java/com/mocktutorial/core/v3/ObjenesisEngine.java:59-63 | a call stubbed with a value, where nothing matched before, answers that value |
| ObjenesisEngine.StubbedThrowableWins | mock-core/src/main/java/com/mocktutorial/core/v3/ObjenesisEngine.java:60-61 | a stubbed throwable is thrown, whatever the return type's default |
| ObjenesisEngine.OtherStubIrrelevant | mock-core/src/main/java/com/mocktutorial/core/v3/ObjenesisEngine.java:59-63 | stubbing other arguments does not change this call's answer |
| ObjenesisEngine.CallHello | mock-core/src/main/java/com/mocktutorial/core/v3/ObjenesisEngine.java:58-63 | one call through the interface handler answers from the behaviours present before it, appends the `hello(word)` record to that mock's ledger, and leaves the proxy and configuration registries unchanged |
| ObjenesisEngine.HelloScenario | mock-core/src/test/java/com/mocktutorial/core/v3/MockInterfaceTest.java:20-27 | the stubbed argument answers the stubbed string; another argument answers null |
| Redirection.Classify | mock-advanced/src/main/java/com/mocktutorial/advanced/StaticMocker.java:114-119 | an object stored as a return value is tagged `Thrown` iff it is a Throwable, otherwise kept as a plain object (objects are taken not to be `Function`s) |
| Redirection.ThrowableObject | mock-advanced/src/main/java/com/mocktutorial/advanced/StaticMocker.java:74-79 | a `Throwable` parameter stores a null object iff it is absent |
| Redirection.FunctionObject | mock-advanced/src/main/java/com/mocktutorial/advanced/StaticMocker.java:90-95 | a `Function` parameter stores a null object iff it is absent |
| Redirection.Entry | mock-advanced/src/main/java/com/mocktutorial/advanced/StaticMocker.java:110-111 | an answer exists iff the owner has a method map holding the key |
| Redirection.Prepared | mock-advanced/src/main/java/com/mocktutorial/advanced/StaticMocker.java:34 | `putIfAbsent` of an empty map: the owner is present afterwards, and only that owner is added |
| Redirection.Put | mock-advanced/src/main/java/com/mocktutorial/advanced/StaticMocker.java:60-62 | prepare, then `put`: the owners are the old ones plus this one |
| Redirection.PreparedKeepsEntries | mock-advanced/src/main/java/com/mocktutorial/advanced/StaticMocker.java:34 | preparing changes no answer and is idempotent |
| Redirection.PutEntry | mock-advanced/src/main/java/com/mocktutorial/advanced/StaticMocker.java:59-95 | the written pair answers what was written; every other pair keeps its answer |
| Redirection.PutTwice | mock-advanced/src/main/java/com/mocktutorial/advanced/StaticMocker.java:59-95 | a second write to the same pair replaces the first |
| Redirection.RemoveEntry | mock-advanced/src/main/java/com/mocktutorial/advanced/StaticMocker.java:154-157 | removing an owner forgets exactly its answers |
| Redirection.Apply | mock-advanced/src/main/java/com/mocktutorial/advanced/StaticMocker.java:113-120 | a Throwable is raised, a Function is applied to the arguments, anything else is returned; never `PROCEED` |
| StaticMocker.Resolve | mock-advanced/src/main/java/com/mocktutorial/advanced/StaticMocker.java:109-127 | `PROCEED` iff the class or the method name is unconfigured; otherwise the stored answer applied to the arguments |
| StaticMocker.StaticMocker.constructor | mock-advanced/src/main/java/com/mocktutorial/advanced/StaticMocker.java:18 | the table starts empty |
| StaticMocker.StaticMocker.PrepareForStaticMocking | mock-advanced/src/main/java/com/mocktutorial/advanced/StaticMocker.java:31-48 | the table part is `putIfAbsent` of an empty method map |
| StaticMocker.StaticMocker.EnsurePrepared | mock-advanced/src/main/java/com/mocktutorial/advanced/StaticMocker.java:134-138 | a prepared class is left as it is; an absent one is prepared |
| StaticMocker.StaticMocker.Store | mock-advanced/src/main/java/com/mocktutorial/advanced/StaticMocker.java:59-95 | prepares the class, then stores; a null object throws `NullPointerException` after preparing |
| StaticMocker.StaticMocker.When | mock-advanced/src/main/java/com/mocktutorial/advanced/StaticMocker.java:59-64 | stores the classified value under (class, name); a null value throws |
| StaticMocker.StaticMocker.WhenThrow | mock-advanced/src/main/java/com/mocktutorial/advanced/StaticMocker.java:74-79 | stores the Throwable under (class, name); a null one throws |
| StaticMocker.StaticMocker.WhenImplement | mock-advanced/src/main/java/com/mocktutorial/advanced/StaticMocker.java:90-95 | stores the Function under (class, name); a null one throws |
| StaticMocker.StaticMocker.HandleStaticMethodCall | mock-advanced/src/main/java/com/mocktutorial/advanced/StaticMocker.java:109-127 | the read-only lookup answers `Resolve` |
| StaticMocker.StaticMocker.ResetAll | mock-advanced/src/main/java/com/mocktutorial/advanced/StaticMocker.java:143-147 | the table is emptied |
| StaticMocker.StaticMocker.Reset | mock-advanced/src/main/java/com/mocktutorial/advanced/StaticMocker.java:154-157 | only that class's entry is removed |
| StaticMocker.WhenThenHandle | mock-advanced/src/main/java/com/mocktutorial/advanced/StaticMocker.java:59-64 | after `when(c, m, v)` the call returns v, or throws it when it is a Throwable; other pairs are unaffected |
| StaticMocker.WhenThrowThenHandle | mock-advanced/src/main/java/com/mocktutorial/advanced/StaticMocker.java:114-115 | `whenThrow` makes the call throw that very Throwable |
| StaticMocker.WhenImplementThenHandle | mock-advanced/src/main/java/com/mocktutorial/advanced/StaticMocker.java:116-117 | `whenImplement` makes the call answer the function of its arguments |
| StaticMocker.LaterConfigurationWins | mock-advanced/src/main/java/com/mocktutorial/advanced/StaticMocker.java:59-95 | a later configuration of the same pair replaces the earlier one |
| StaticMocker.ArgumentsIgnored | mock-advanced/src/main/java/com/mocktutorial/advanced/StaticMocker.java:111 | unless the answer is a function, the arguments do not affect the answer |
| StaticMocker.PrepareChangesNoAnswer | mock-advanced/src/main/java/com/mocktutorial/advanced/StaticMocker.java:34 | preparing, again or for the first time, changes no answer |
| StaticMocker.ResetProceeds | mock-advanced/src/main/java/com/mocktutorial/advanced/StaticMocker.java:154-157 | after `reset(c)` every call of c proceeds; other classes are unaffected |
| StaticMocker.StaticScenario | mock-advanced/src/test/java/com/mocktutorial/advanced/StaticMockerTest.java:20-66 | a stubbed value, then a stubbed exception (the same object), then an implementation, answer as configured |
| ConstructorMocker.Names | mock-advanced/src/main/java/com/mocktutorial/advanced/ConstructorMocker.java:160-165 | one `getName()` per parameter type, in order |
| ConstructorMocker.KeyOf | mock-advanced/src/main/java/com/mocktutorial/advanced/ConstructorMocker.java:154-168 | the signature key is always wrapped in parentheses, and is "()" for a null or an empty type array |
| ConstructorMocker.KeyStep | mock-advanced/src/main/java/com/mocktutorial/advanced/ConstructorMocker.java:160-165 | each loop step adds a comma (except the first time) and the next type name |
| ConstructorMocker.ConstructorKey | mock-advanced/src/main/java/com/mocktutorial/advanced/ConstructorMocker.java:154-168 | the string-builder loop yields `KeyOf`: "()" for null or no types, else "(" + names joined by "," + ")" |
| ConstructorMocker.JoinEndsWithLast | mock-advanced/src/main/java/com/mocktutorial/advanced/ConstructorMocker.java:160-165 | a joined key ends with its last type name |
| ConstructorMocker.LastComma | mock-advanced/src/main/java/com/mocktutorial/advanced/ConstructorMocker.java:160-165 | in a join of comma-free names, the last comma sits just before the last name |
| ConstructorMocker.SplitAtLastComma | mock-advanced/src/main/java/com/mocktutorial/advanced/ConstructorMocker.java:160-165 | a join of two or more names splits at its last comma into the join of the others and the last name |
| ConstructorMocker.JoinCommaFree | mock-advanced/src/main/java/com/mocktutorial/advanced/ConstructorMocker.java:160-165 | a single comma-free name joins to a comma-free string |
| ConstructorMocker.JoinEmpty | mock-advanced/src/main/java/com/mocktutorial/advanced/ConstructorMocker.java:155-157 | the join is empty exactly for no names (class names are never empty) |
| ConstructorMocker.JoinInjective | mock-advanced/src/main/java/com/mocktutorial/advanced/ConstructorMocker.java:154-168 | different lists of class names never join to the same string |
| ConstructorMocker.KeyIdentifiesSignature | mock-advanced/src/main/java/com/mocktutorial/advanced/ConstructorMocker.java:154-168 | two signatures share a key iff their parameter type names agree, a null array counting as empty |
| ConstructorMocker.Resolve | mock-advanced/src/main/java/com/mocktutorial/advanced/ConstructorMocker.java:124-146 | `PROCEED` iff unconfigured; a Function is applied; any other stored object, a Throwable included, is returned as that object; never a throw |
| ConstructorMocker.SupplierAsFunction | mock-advanced/src/main/java/com/mocktutorial/advanced/ConstructorMocker.java:108-110 | the registered implementation ignores its arguments and answers the supplier |
| ConstructorMocker.ConstructorMocker.constructor | mock-advanced/src/main/java/com/mocktutorial/advanced/ConstructorMocker.java:25 | the table starts empty |
| ConstructorMocker.ConstructorMocker.PrepareForConstructorMocking | mock-advanced/src/main/java/com/mocktutorial/advanced/ConstructorMocker.java:39-64 | the table part is `putIfAbsent` of an empty map |
| ConstructorMocker.ConstructorMocker.EnsurePrepared | mock-advanced/src/main/java/com/mocktutorial/advanced/ConstructorMocker.java:175-179 | a prepared class is left as it is; an absent one is prepared |
| ConstructorMocker.ConstructorMocker.Store | mock-advanced/src/main/java/com/mocktutorial/advanced/ConstructorMocker.java:74-99 | prepares, computes the key, then stores; a null object throws after preparing |
| ConstructorMocker.ConstructorMocker.WhenConstructor | mock-advanced/src/main/java/com/mocktutorial/advanced/ConstructorMocker.java:74-81 | stores the instance under (class, key of the types); a null instance throws |
| ConstructorMocker.ConstructorMocker.WhenConstructorImplement | mock-advanced/src/main/java/com/mocktutorial/advanced/ConstructorMocker.java:91-99 | stores the Function under (class, key of the types); a null one throws |
| ConstructorMocker.ConstructorMocker.WhenDefaultConstructor | mock-advanced/src/main/java/com/mocktutorial/advanced/ConstructorMocker.java:108-110 | stores, under "()", a function that ignores its arguments and answers the supplier |
| ConstructorMocker.ConstructorMocker.HandleConstructorCall | mock-advanced/src/main/java/com/mocktutorial/advanced/ConstructorMocker.java:124-146 | the read-only lookup answers `Resolve` for the key of the parameter types |
| ConstructorMocker.ConstructorMocker.ResetAll | mock-advanced/src/main/java/com/mocktutorial/advanced/ConstructorMocker.java:206-209 | the table is emptied |
| ConstructorMocker.ConstructorMocker.Reset | mock-advanced/src/main/java/com/mocktutorial/advanced/ConstructorMocker.java:216-219 | only that class's entry is removed |
| ConstructorMocker.ConstructorReturnsStoredInstance | mock-advanced/src/main/java/com/mocktutorial/advanced/ConstructorMocker.java:136-138 | a stored instance is handed back as that very object, for any arguments |
| ConstructorMocker.ThrowableIsReturnedNotThrown | mock-advanced/src/main/java/com/mocktutorial/advanced/ConstructorMocker.java:134-138 | a Throwable instance given to `whenConstructor` is returned as the new object, while the same object given to a static `when` is thrown |
| ConstructorMocker.DefaultConstructorAnswersSupplier | mock-advanced/src/main/java/com/mocktutorial/advanced/ConstructorMocker.java:108-110 | after `whenDefaultConstructor`, a call with null or no parameter types answers the supplier's object |
| ConstructorMocker.OtherSignaturesUnaffected | mock-advanced/src/main/java/com/mocktutorial/advanced/ConstructorMocker.java:74-99 | configuring one signature leaves every other signature and class as it was |
| ConstructorMocker.ResetAndPrepare | mock-advanced/src/main/java/com/mocktutorial/advanced/ConstructorMocker.java:42 | after `reset(c)` every constructor of c proceeds, other classes are unaffected, and preparing changes no answer |
| ConstructorMocker.ConstructorScenario | mock-integration/src/test/java/com/mocktutorial/integration/ComprehensiveTest.java:120-152 | the no-argument constructor answers the stored instance itself, and a `(java.lang.String)` constructor answers the implementation's result |
| Redirection.AnswerOrNull | mock-advanced/src/main/java/com/mocktutorial/advanced/PrivateMethodMocker.java:74-92 | the lookup shared with `StaticMockHandler.handleStaticMethodCall`: the stored answer applied to the arguments, or null for an unconfigured owner or key; never `PROCEED` |
| PrivateMethodMocker.PrivateMethodMocker.constructor | mock-advanced/src/main/java/com/mocktutorial/advanced/PrivateMethodMocker.java:16 | the table starts empty |
| PrivateMethodMocker.PrivateMethodMocker.Store | mock-advanced/src/main/java/com/mocktutorial/advanced/PrivateMethodMocker.java:27-60 | `computeIfAbsent`, then `put`; a null object throws after the receiver got its map |
| PrivateMethodMocker.PrivateMethodMocker.When | mock-advanced/src/main/java/com/mocktutorial/advanced/PrivateMethodMocker.java:27-31 | stores the classified value under (receiver, name); a null value throws |
| PrivateMethodMocker.PrivateMethodMocker.WhenThrow | mock-advanced/src/main/java/com/mocktutorial/advanced/PrivateMethodMocker.java:41-45 | stores the Throwable; a null one throws |
| PrivateMethodMocker.PrivateMethodMocker.WhenImplement | mock-advanced/src/main/java/com/mocktutorial/advanced/PrivateMethodMocker.java:56-60 | stores the Function; a null one throws |
| PrivateMethodMocker.PrivateMethodMocker.HandlePrivateMethodCall | mock-advanced/src/main/java/com/mocktutorial/advanced/PrivateMethodMocker.java:74-92 | the read-only lookup answers `AnswerOrNull` |
| PrivateMethodMocker.PrivateMethodMocker.ResetAll | mock-advanced/src/main/java/com/mocktutorial/advanced/PrivateMethodMocker.java:122-125 | the table is emptied |
| PrivateMethodMocker.PrivateMethodMocker.Reset | mock-advanced/src/main/java/com/mocktutorial/advanced/PrivateMethodMocker.java:132-135 | only that receiver's entry is removed |
| PrivateMethodMocker.ConfigurationIsPerReceiver | mock-advanced/src/main/java/com/mocktutorial/advanced/PrivateMethodMocker.java:27-60 | the configured pair answers what was stored; every other receiver and method answers as before |
| PrivateMethodMocker.LaterConfigurationWins | mock-advanced/src/main/java/com/mocktutorial/advanced/PrivateMethodMocker.java:27-60 | a later configuration of the same pair replaces the earlier one |
| PrivateMethodMocker.ResetAnswersNull | mock-advanced/src/main/java/com/mocktutorial/advanced/PrivateMethodMocker.java:132-135 | after `reset(i)` every private call on i answers null; other receivers are unaffected |
| PrivateMethodMocker.PrivateScenario | mock-advanced/src/test/java/com/mocktutorial/advanced/PrivateMethodMockerTest.java:40-74 | answers 100, then rethrows the same exception, then answers 200; another receiver answers null |
| StaticMockHandler.PutIfAbsent | mock-advanced/src/main/java/com/mocktutorial/advanced/internal/StaticMockHandler.java:72-74 | an existing entry is kept, an absent key gets the new value, nothing else changes |
| StaticMockHandler.HasBehaviorsIffSomeEntry | mock-advanced/src/main/java/com/mocktutorial/advanced/internal/StaticMockHandler.java:110-113 | a class has behaviours iff some method of it is configured |
| StaticMockHandler.StaticMockHandler.constructor | mock-advanced/src/main/java/com/mocktutorial/advanced/internal/StaticMockHandler.java:18-21 | both maps start empty |
| StaticMockHandler.StaticMockHandler.RegisterBehavior | mock-advanced/src/main/java/com/mocktutorial/advanced/internal/StaticMockHandler.java:30-34 | stores under (class name, method name); a null behaviour throws after the class got its map; the bytes are untouched |
| StaticMockHandler.StaticMockHandler.HandleStaticMethodCall | mock-advanced/src/main/java/com/mocktutorial/advanced/internal/StaticMockHandler.java:46-64 | the read-only lookup answers `AnswerOrNull` |
| StaticMockHandler.StaticMockHandler.StoreOriginalBytecode | mock-advanced/src/main/java/com/mocktutorial/advanced/internal/StaticMockHandler.java:72-74 | `putIfAbsent`: the first array stored for a class stays; a null array throws |
| StaticMockHandler.StaticMockHandler.GetOriginalBytecode | mock-advanced/src/main/java/com/mocktutorial/advanced/internal/StaticMockHandler.java:82-84 | the stored array itself, or null |
| StaticMockHandler.StaticMockHandler.HasMockBehaviors | mock-advanced/src/main/java/com/mocktutorial/advanced/internal/StaticMockHandler.java:110-113 | true iff the class has a non-empty method map |
| StaticMockHandler.StaticMockHandler.ResetAll | mock-advanced/src/main/java/com/mocktutorial/advanced/internal/StaticMockHandler.java:89-92 | forgets every behaviour and keeps the original bytes |
| StaticMockHandler.StaticMockHandler.Reset | mock-advanced/src/main/java/com/mocktutorial/advanced/internal/StaticMockHandler.java:99-102 | removes only that class's behaviours and keeps the bytes |
| StaticMockHandler.RegisterThenHandle | mock-advanced/src/main/java/com/mocktutorial/advanced/internal/StaticMockHandler.java:30-64 | the registered pair answers what was registered; no other pair changes |
| StaticMockHandler.RegisteredClassHasBehaviors | mock-advanced/src/main/java/com/mocktutorial/advanced/internal/StaticMockHandler.java:30-34 | after a registration the class has behaviours |
| StaticMockHandler.ResetAnswersNull | mock-advanced/src/main/java/com/mocktutorial/advanced/internal/StaticMockHandler.java:99-102 | after `reset(c)` the class answers null everywhere and has no behaviours; other classes are unaffected |
| StaticMockHandler.BytesSurviveReset | mock-advanced/src/main/java/com/mocktutorial/advanced/internal/StaticMockHandler.java:72-92 | `putIfAbsent` keeps whichever bytes came first: the bytes a class already had, or else the first ones stored for it, survive a later store and `resetAll` |
| StaticMockBuilder.StaticMockBuilder.Method | mock-advanced/src/main/java/com/mocktutorial/advanced/StaticMockBuilder.java:55-57 | a new builder for the same class and method n; the receiver, a value, is unchanged |
| StaticMockBuilder.StaticMockBuilder.Register | mock-advanced/src/main/java/com/mocktutorial/advanced/StaticMockBuilder.java:66-104 | no method name is an `IllegalStateException` and no registration; otherwise it registers under (class name, method) and returns the same builder |
| StaticMockBuilder.StaticMockBuilder.ThenReturn | mock-advanced/src/main/java/com/mocktutorial/advanced/StaticMockBuilder.java:66-73 | that guard, then registers the value; a null value throws `NullPointerException` after the class has been prepared |
| StaticMockBuilder.StaticMockBuilder.ThenThrow | mock-advanced/src/main/java/com/mocktutorial/advanced/StaticMockBuilder.java:81-88 | that guard, then registers the Throwable; a null throwable throws `NullPointerException` after the class has been prepared |
| StaticMockBuilder.StaticMockBuilder.ThenImplement | mock-advanced/src/main/java/com/mocktutorial/advanced/StaticMockBuilder.java:97-104 | that guard, then registers the Function; a null implementation throws `NullPointerException` after the class has been prepared |
| StaticMockBuilder.EnableStaticMockingFor | mock-advanced/src/main/java/com/mocktutorial/advanced/StaticMockBuilder.java:112-128 | a class with behaviours is left alone; otherwise its current bytes are kept as the original (`putIfAbsent`); behaviours never change |
| StaticMockBuilder.ForClass | mock-advanced/src/main/java/com/mocktutorial/advanced/StaticMockBuilder.java:38-47 | enables static mocking, then returns a builder with no method name; the behaviours are unchanged, and the original bytes are unchanged when the class already has behaviours, else stored by `putIfAbsent` |
| StaticMockBuilder.BuilderResetAll | mock-advanced/src/main/java/com/mocktutorial/advanced/StaticMockBuilder.java:133-135 | the handler forgets every behaviour and keeps the bytes |
| StaticMockBuilder.BuilderReset | mock-advanced/src/main/java/com/mocktutorial/advanced/StaticMockBuilder.java:142-144 | clears exactly that class's entry, by its name |
| StaticMockBuilder.BuilderScenario | mock-advanced/src/main/java/com/mocktutorial/advanced/StaticMockBuilder.java:66-73 | a builder without a method fails and registers nothing; after `method(n)` the value is registered and answered |
| MethodInterceptor.StubAnswer | mock-core/src/main/java/com/mocktutorial/core/internal/MethodInterceptor.java:124-135 | fixed precedence: a stored exception is thrown (a null one fails), then an implementation is applied, then the stored return value is returned, null when there is none |
| MethodInterceptor.PrecedenceIsFixed | mock-core/src/main/java/com/mocktutorial/core/internal/MethodInterceptor.java:124-135 | an exception stub beats any other stub of the same key, and an implementation beats a return value |
| MethodInterceptor.ResultBuilder.GetMethodReturnValue | mock-core/src/main/java/com/mocktutorial/core/internal/MethodInterceptor.java:154-156 | yields the recorded value the builder was made with |
| MethodInterceptor.StubMaps.constructor | mock-core/src/main/java/com/mocktutorial/core/internal/MethodInterceptor.java:18-20 | the three shared maps start empty |
| MethodInterceptor.StubMaps.HasReturnValue | mock-core/src/main/java/com/mocktutorial/core/internal/MethodInterceptor.java:110-114 | true iff the key is in one of the three maps; never for null |
| MethodInterceptor.StubMaps.GetReturnValue | mock-core/src/main/java/com/mocktutorial/core/internal/MethodInterceptor.java:124-135 | answers `StubAnswer` for the key and arguments |
| MethodInterceptor.MethodInterceptor.constructor | mock-core/src/main/java/com/mocktutorial/core/internal/MethodInterceptor.java:27-29 | no call is recorded yet |
| MethodInterceptor.MethodInterceptor.RecordMethodCall | mock-core/src/main/java/com/mocktutorial/core/internal/MethodInterceptor.java:37-40 | remembers the value and marks a call as recorded |
| MethodInterceptor.MethodInterceptor.ThenReturn | mock-core/src/main/java/com/mocktutorial/core/internal/MethodInterceptor.java:50-61 | without a recorded call it is an `IllegalStateException`; otherwise it stores under the recorded value unless that is null, and returns a builder for it; the other maps are untouched |
| MethodInterceptor.MethodInterceptor.ThenThrow | mock-core/src/main/java/com/mocktutorial/core/internal/MethodInterceptor.java:70-81 | the same guard and rule for the exception map |
| MethodInterceptor.MethodInterceptor.ThenImplement | mock-core/src/main/java/com/mocktutorial/core/internal/MethodInterceptor.java:91-102 | the same guard and rule for the implementation map |
| MethodInterceptor.RecordThenStub | mock-core/src/main/java/com/mocktutorial/core/internal/MethodInterceptor.java:37-61 | recording k and stubbing v makes the maps answer v for k; a recorded null stores nothing |
| MockitoAdapter.AdapterDefault | mock-core/src/main/java/com/mocktutorial/core/internal/MockitoAdapter.java:106-130 | the zero of a primitive type or of its box; null iff `void`, another `Number` or any other reference type |
| MockitoAdapter.DefaultsDifferOnlyForBoxes | mock-core/src/main/java/com/mocktutorial/core/internal/MockitoAdapter.java:106-130 | the adapter's and the v3 engine's defaults agree iff the type is not a boxed primitive |
| MockitoAdapter.StubbedReply | mock-core/src/main/java/com/mocktutorial/core/internal/MockitoAdapter.java:76-97 | the non-`Object` branch of `invoke`: it crashes only with a `NullPointerException` from a null interceptor stub, and throws only a stubbed exception or a Throwable stored locally under the method name |
| MockitoAdapter.MockInvocationHandler.constructor | mock-core/src/main/java/com/mocktutorial/core/internal/MockitoAdapter.java:56-62 | the handler keeps its interface and starts with no local stubs |
| MockitoAdapter.MockInvocationHandler.Invoke | mock-core/src/main/java/com/mocktutorial/core/internal/MockitoAdapter.java:65-98 | `equals` is identity (failing on a null or empty array), `hashCode` the identity hash, `toString` "Mock of Name@hex"; else the interceptor stub for the default, then the local stub (a Throwable thrown), then the default |
| MockitoAdapter.InterceptorStubWins | mock-core/src/main/java/com/mocktutorial/core/internal/MockitoAdapter.java:82-85 | an interceptor stub for the default wins over a local stub |
| MockitoAdapter.LocalStubAnswers | mock-core/src/main/java/com/mocktutorial/core/internal/MockitoAdapter.java:88-95 | without an interceptor stub a local stub answers: a Throwable is thrown, anything else returned (the source never writes `methodReturns`, so this branch is dead there) |
| MockitoAdapter.UnstubbedAnswersDefault | mock-core/src/main/java/com/mocktutorial/core/internal/MockitoAdapter.java:97 | an unstubbed call answers its type's default |
| MockitoAdapter.StubSharedBySameReturnType | mock-core/src/main/java/com/mocktutorial/core/internal/MockitoAdapter.java:76-85 | a stub keyed by a default answers every method with that return type, whatever its name |
| MockitoAdapter.NullDefaultNeverIntercepted | mock-core/src/main/java/com/mocktutorial/core/internal/MockitoAdapter.java:76-97 | a method whose default is null is never answered from the interceptor's maps |
| MockSettings.Enable | mock-core/src/main/java/com/mocktutorial/core/internal/MockSettings.java:20-65 | an enabler turns its flag on and keeps the name and class loader |
| MockSettings.InitialIsBlank | mock-core/src/main/java/com/mocktutorial/core/internal/MockSettings.java:7-13 | a fresh object has every flag off and no name or class loader |
| MockSettings.EnableTouchesOnlyItsFlag | mock-core/src/main/java/com/mocktutorial/core/internal/MockSettings.java:20-65 | an enabler changes its own flag and no other, so no flag is ever turned off |
| MockSettings.StateIsItsFlags | mock-core/src/main/java/com/mocktutorial/core/internal/MockSettings.java:7-13 | the state is determined by its five flags, name and class loader |
| MockSettings.EnableIsIdempotent | mock-core/src/main/java/com/mocktutorial/core/internal/MockSettings.java:20-65 | enabling twice is enabling once |
| MockSettings.FlagsAfterTwo | mock-core/src/main/java/com/mocktutorial/core/internal/MockSettings.java:20-65 | after two enablers exactly their flags have been added |
| MockSettings.EnablersCommute | mock-core/src/main/java/com/mocktutorial/core/internal/MockSettings.java:20-65 | the order of chained enablers does not matter |
| MockSettings.MockSettings.constructor | mock-core/src/main/java/com/mocktutorial/core/internal/MockSettings.java:7-13 | the state is the initial one |
| MockSettings.MockSettings.UseEnhancedMock | mock-core/src/main/java/com/mocktutorial/core/internal/MockSettings.java:20-23 | enables enhanced mocking only and returns the same object |
| MockSettings.MockSettings.MockPrivateMethods | mock-core/src/main/java/com/mocktutorial/core/internal/MockSettings.java:30-33 | enables private-method mocking only and returns the same object |
| MockSettings.MockSettings.MockStaticMethods | mock-core/src/main/java/com/mocktutorial/core/internal/MockSettings.java:40-43 | enables static-method mocking only and returns the same object |
| MockSettings.MockSettings.MockFinalMethods | mock-core/src/main/java/com/mocktutorial/core/internal/MockSettings.java:50-53 | enables final-method mocking only and returns the same object |
| MockSettings.MockSettings.MockConstructors | mock-core/src/main/java/com/mocktutorial/core/internal/MockSettings.java:60-63 | enables constructor mocking only and returns the same object |
| MockSettings.MockSettings.Name | mock-core/src/main/java/com/mocktutorial/core/internal/MockSettings.java:71-74 | sets only the name and returns the same object |
| MockSettings.MockSettings.ClassLoader | mock-core/src/main/java/com/mocktutorial/core/internal/MockSettings.java:82-85 | sets only the class loader and returns the same object |
| MockSettings.MockSettings.IsEnhancedMockEnabled | mock-core/src/main/java/com/mocktutorial/core/internal/MockSettings.java:92-94 | reads the enhanced-mock flag |
| MockSettings.MockSettings.IsMockPrivateMethodsEnabled | mock-core/src/main/java/com/mocktutorial/core/internal/MockSettings.java:101-103 | reads the private-methods flag |
| MockSettings.MockSettings.IsMockStaticMethodsEnabled | mock-core/src/main/java/com/mocktutorial/core/internal/MockSettings.java:110-112 | reads the static-methods flag |
| MockSettings.MockSettings.IsMockFinalMethodsEnabled | mock-core/src/main/java/com/mocktutorial/core/internal/MockSettings.java:119-121 | reads the final-methods flag |
| MockSettings.MockSettings.IsMockConstructorsEnabled | mock-core/src/main/java/com/mocktutorial/core/internal/MockSettings.java:128-130 | reads the constructors flag |
| MockSettings.MockSettings.GetName | mock-core/src/main/java/com/mocktutorial/core/internal/MockSettings.java:137-139 | reads the name |
| MockSettings.MockSettings.GetClassLoader | mock-core/src/main/java/com/mocktutorial/core/internal/MockSettings.java:146-148 | reads the class loader |
| MockSettings.StaticChainScenario | mock-utils/src/main/java/com/mocktutorial/utils/MockHelper.java:47-51 | the enhanced-plus-static chain leaves exactly those two flags on, and repeating an enabler changes nothing |
| Jdk21Optimizer.SplitAll | mock-advanced/src/main/java/com/mocktutorial/advanced/internal/Jdk21Optimizer.java:77 | the raw split: separator-free pieces that join back to the string |
| Jdk21Optimizer.JavaSplit | mock-advanced/src/main/java/com/mocktutorial/advanced/internal/Jdk21Optimizer.java:77-78 | `String.split` on one character: no piece holds it; a string without it is returned whole; otherwise a prefix of the raw split that drops only trailing empty pieces |
| Jdk21Optimizer.StripTrailingEmpty | mock-advanced/src/main/java/com/mocktutorial/advanced/internal/Jdk21Optimizer.java:77 | `String.split` drops exactly the trailing empty pieces |
| Jdk21Optimizer.SplitPrefix | mock-advanced/src/main/java/com/mocktutorial/advanced/internal/Jdk21Optimizer.java:77 | a separator-free prefix only extends the first piece |
| Jdk21Optimizer.SplitAtSeparator | mock-advanced/src/main/java/com/mocktutorial/advanced/internal/Jdk21Optimizer.java:77 | a leading separator makes an empty first piece |
| Jdk21Optimizer.StripKeeps | mock-advanced/src/main/java/com/mocktutorial/advanced/internal/Jdk21Optimizer.java:77 | a non-empty piece survives the stripping at its place |
| Jdk21Optimizer.JavaSplitFirst | mock-advanced/src/main/java/com/mocktutorial/advanced/internal/Jdk21Optimizer.java:77-78 | the first piece of a string is everything before its first separator |
| Jdk21Optimizer.DecimalDigits | mock-advanced/src/main/java/com/mocktutorial/advanced/internal/Jdk21Optimizer.java:83-86 | the decimal text of a number is non-empty and all digits |
| Jdk21Optimizer.ParseInt | mock-advanced/src/main/java/com/mocktutorial/advanced/internal/Jdk21Optimizer.java:83-86 | `Integer.parseInt` succeeds only with a sign or digit first and only within the `int` range |
| Jdk21Optimizer.DecimalRoundTrip | mock-advanced/src/main/java/com/mocktutorial/advanced/internal/Jdk21Optimizer.java:83-86 | the digits of n read back as n |
| Jdk21Optimizer.ParseIntRoundTrip | mock-advanced/src/main/java/com/mocktutorial/advanced/internal/Jdk21Optimizer.java:83-86 | `parseInt` reads back what `toString` writes, over the whole `int` range |
| Jdk21Optimizer.JavaVersion | mock-advanced/src/main/java/com/mocktutorial/advanced/internal/Jdk21Optimizer.java:74-92 | the version read from a `java.version` string: none for null, and always within `int` when present |
| Jdk21Optimizer.DecimalShape | mock-advanced/src/main/java/com/mocktutorial/advanced/internal/Jdk21Optimizer.java:80-86 | a number's text holds no '.' or '_' and is "1" only for 1 |
| Jdk21Optimizer.IsVersionAtLeast | mock-advanced/src/main/java/com/mocktutorial/advanced/internal/Jdk21Optimizer.java:74-92 | true iff the parsed version is at least the minimum; a null string is never at least anything |
| Jdk21Optimizer.NewStyleVersion | mock-advanced/src/main/java/com/mocktutorial/advanced/internal/Jdk21Optimizer.java:84-86 | a number other than 1, alone or followed by a dot part, is that version |
| Jdk21Optimizer.FirstPieceShape | mock-advanced/src/main/java/com/mocktutorial/advanced/internal/Jdk21Optimizer.java:81-83 | the remainder's first dot piece is empty or starts with '_' |
| Jdk21Optimizer.OldStyleSplit | mock-advanced/src/main/java/com/mocktutorial/advanced/internal/Jdk21Optimizer.java:77-81 | "1." + d + rest splits into "1", then d followed by the remainder's first piece |
| Jdk21Optimizer.OldStyleVersion | mock-advanced/src/main/java/com/mocktutorial/advanced/internal/Jdk21Optimizer.java:81-83 | "1." + n, then nothing or a '.' or '_' part, is version n |
| Jdk21Optimizer.Jdk8Example | mock-advanced/src/main/java/com/mocktutorial/advanced/internal/Jdk21Optimizer.java:76-83 | "1.8.0_292" is version 8, below 21 |
| Jdk21Optimizer.Jdk11Example | mock-advanced/src/main/java/com/mocktutorial/advanced/internal/Jdk21Optimizer.java:84-86 | "11.0.12" is version 11 |
| Jdk21Optimizer.Jdk21Example | mock-advanced/src/main/java/com/mocktutorial/advanced/internal/Jdk21Optimizer.java:15-34 | "21" is version 21, so the JDK 21 flag is on |
| Jdk21Optimizer.UnparsableIsNever | mock-advanced/src/main/java/com/mocktutorial/advanced/internal/Jdk21Optimizer.java:88-91 | null, ".", "" and "x" fail to parse and are never at least any version |
| Jdk21Optimizer.IsJdk21OrHigher | mock-advanced/src/main/java/com/mocktutorial/advanced/internal/Jdk21Optimizer.java:13-34 | true iff the version string parses to 21 or more; never for a missing `java.version` property |
| Jdk21Optimizer.ApplyJdk21Optimizations | mock-advanced/src/main/java/com/mocktutorial/advanced/internal/Jdk21Optimizer.java:44-65 | fails with a `NullPointerException` iff the class is null; otherwise true iff on JDK 21 or later |
| Jdk21Optimizer.ApplyOptimizedStubbing | mock-advanced/src/main/java/com/mocktutorial/advanced/internal/Jdk21Optimizer.java:103-116 | never applies anything: always false |
| UserModel.WrapInt64 | mock-basics/src/main/java/com/mocktutorial/basics/models/User.java:68 | `long` arithmetic wraps modulo 2^64 and is exact when the value fits |
| UserModel.UserWithoutEmail | mock-basics/src/main/java/com/mocktutorial/basics/models/User.java:17-19 | the two-argument constructor keeps id and name and leaves the email null |
| UserModel.Equals | mock-basics/src/main/java/com/mocktutorial/basics/models/User.java:34-43 | equal iff the other object is a user with the same id and null-safely equal name and email |
| UserModel.EqualsIsEquivalence | mock-basics/src/main/java/com/mocktutorial/basics/models/User.java:34-43 | `equals` is reflexive, symmetric and transitive, and false for null |
| UserModel.StringHash | mock-basics/src/main/java/com/mocktutorial/basics/models/User.java:48-49 | `String.hashCode` stays within `int` |
| UserModel.IdHash | mock-basics/src/main/java/com/mocktutorial/basics/models/User.java:47 | the id hash stays within `int` |
| UserModel.HashCode | mock-basics/src/main/java/com/mocktutorial/basics/models/User.java:46-51 | `hashCode` stays within `int` |
| UserModel.EqualsAgreesWithHashCode | mock-basics/src/main/java/com/mocktutorial/basics/models/User.java:34-51 | equal users have equal hash codes |
| UserModel.NarrowingIgnoresLongWrap | mock-basics/src/main/java/com/mocktutorial/basics/models/User.java:68 | two values that differ by a multiple of 2^64 narrow to the same `int` |
| UserModel.CalculateScore | mock-basics/src/main/java/com/mocktutorial/basics/models/User.java:66-69 | id*10 plus the name's length (0 for null), narrowed to `int`, is one 32-bit wrap of the exact value, and exact whenever it fits |
| UserModel.JohnDoeScores18 | mock-advanced/src/test/java/com/mocktutorial/advanced/PrivateMethodMockerTest.java:31-33 | user 1 named "John Doe" scores 18 |
| ManualMockUserService.ListingIsComplete | mock-basics/src/main/java/com/mocktutorial/basics/mocks/ManualMockUserService.java:47-49 | a listing of the users holds every stored user |
| ManualMockUserService.ManualMockUserService.constructor | mock-basics/src/main/java/com/mocktutorial/basics/mocks/ManualMockUserService.java:12-14 | no users, no saves, no deletions |
| ManualMockUserService.ManualMockUserService.AddMockUser | mock-basics/src/main/java/com/mocktutorial/basics/mocks/ManualMockUserService.java:20-22 | maps the user's id to the user, replacing any user with that id |
| ManualMockUserService.ManualMockUserService.FindById | mock-basics/src/main/java/com/mocktutorial/basics/mocks/ManualMockUserService.java:25-27 | present iff the id is stored, and then the stored user |
| ManualMockUserService.ManualMockUserService.SaveUser | mock-basics/src/main/java/com/mocktutorial/basics/mocks/ManualMockUserService.java:30-34 | appends the user to the saves, stores it under its id, and succeeds |
| ManualMockUserService.ManualMockUserService.DeleteUser | mock-basics/src/main/java/com/mocktutorial/basics/mocks/ManualMockUserService.java:37-44 | a stored id is removed and remembered, with true; an absent id changes nothing, with false; the saves are untouched |
| ManualMockUserService.ManualMockUserService.FindAllUsers | mock-basics/src/main/java/com/mocktutorial/basics/mocks/ManualMockUserService.java:47-49 | one entry per stored id, each the user stored under it |
| ManualMockUserService.ManualMockUserService.VerifySavedUser | mock-basics/src/main/java/com/mocktutorial/basics/mocks/ManualMockUserService.java:56-58 | true iff some save was of an equal user |
| ManualMockUserService.ManualMockUserService.VerifyDeletedUser | mock-basics/src/main/java/com/mocktutorial/basics/mocks/ManualMockUserService.java:65-67 | true iff the id was deleted |
| ManualMockUserService.ManualMockUserService.GetSaveCount | mock-basics/src/main/java/com/mocktutorial/basics/mocks/ManualMockUserService.java:74-82 | the counting loop returns the number of saves of an equal user |
| ManualMockUserService.SavedIffCounted | mock-basics/src/main/java/com/mocktutorial/basics/mocks/ManualMockUserService.java:56-82 | `verifySavedUser(u)` holds iff `getSaveCount(u)` is positive |
| ManualMockUserService.SaveCountsOnce | mock-basics/src/main/java/com/mocktutorial/basics/mocks/ManualMockUserService.java:30-34 | saving a user adds one to its count and nothing to any other user's |
| ManualMockUserService.ServiceScenario | mock-basics/src/test/java/com/mocktutorial/basics/mocks/ManualMockUserServiceTest.java:27-92 | the fixture users are found, 999 is not; deleting 1 removes and remembers it, deleting 999 fails; a save is counted once |
| UserController.Names | mock-basics/src/main/java/com/mocktutorial/basics/controllers/UserController.java:74-76 | one name per user, in order |
| UserController.NameOrUnknown | mock-basics/src/main/java/com/mocktutorial/basics/controllers/UserController.java:30 | the user's name, or "Unknown User" for a missing user or a null name |
| UserController.UserController.constructor | mock-basics/src/main/java/com/mocktutorial/basics/controllers/UserController.java:19-21 | the controller uses the given service |
| UserController.UserController.GetUserName | mock-basics/src/main/java/com/mocktutorial/basics/controllers/UserController.java:28-31 | the stored user's name, or "Unknown User" |
| UserController.UserController.CreateUser | mock-basics/src/main/java/com/mocktutorial/basics/controllers/UserController.java:40-42 | saves the new user and returns the service's answer, true |
| UserController.UserController.UpdateUser | mock-basics/src/main/java/com/mocktutorial/basics/controllers/UserController.java:51-58 | saves the new details iff the id is stored; otherwise false and nothing saved |
| UserController.UserController.DeleteUser | mock-basics/src/main/java/com/mocktutorial/basics/controllers/UserController.java:65-67 | exactly the service's delete, with its answer and effect |
| UserController.UserController.GetAllUserNames | mock-basics/src/main/java/com/mocktutorial/basics/controllers/UserController.java:73-77 | the names of a listing of the stored users, same length and order as the listing |
| UserController.ControllerScenario | mock-basics/src/test/java/com/mocktutorial/basics/mocks/ManualMockUserServiceTest.java:98-121 | "John Doe", "Unknown User" for 999, a recorded create, an update that replaces user 1 |

## Left out

- Proxy, class and agent creation: `ObjenesisEngine.createInstance`, `MockitoAdapter.createMock`, bytecode rewriting and class redefinition, the agent call inside `prepareForStaticMocking`/`prepareForConstructorMocking`, and `StaticMockBuilder.restore`. These produce JVM classes; only the table parts and the handler bodies that the generated code calls are modelled. `Create` takes the engine's proxy as a parameter.
- StaticMockBuilder.ForClass: class redefinition is taken to succeed. In Java a failed redefinition (for example when no instrumentation is available, StaticBytecodeEnhancer.java:166-167) happens after the original bytes have been stored, and `forClass` rethrows it as `RuntimeException("Failed to create static mock")`; the model stores the bytes and always returns the builder.
- MockitoAdapter.LocalStubAnswers: the adapter never writes `methodReturns`, so the local-stub branch of `invoke` is dead code in the source. The model keeps the map and the branch as written, and the lemma states what the branch would answer.
- `ConstructorMocker.createInstanceWithoutConstructor` (uses `Unsafe`) and `PrivateMethodMocker.invokePrivateMethod` (reflection): foreign runtime facilities.
- `isInstrumentationAvailable` and `isObjenesisAvailable`: environment probes. `Create` takes the instrumentation answer as a parameter.
- The `java.version` system property and the static initializer of `Jdk21Optimizer`: the version string, or the resulting flag, is a parameter.
- Concurrency: every `ConcurrentHashMap` is a sequential `map`. Only its refusal of null values is kept, as a `NullPointerException` outcome.
- Logging and console output: they have no effect on results, except where a `getName()` call in a log line throws (see `ApplyJdk21Optimizations`).
- Floating point: the `0.0f`/`0.0d` defaults are bit patterns, with no float arithmetic.
- `MockitoAdapter.MockInvocationHandler.Invoke`: it does not model the call to `Mock.recordMethodCall(result)`, because `core/Mock.java` does not define that member. The handler is a function of the stub state. The placeholder `verify`/`once`/`times`/`never`/`reset` of `core/Mock.java` are not modelled either.
- `PrivateMethodMocker.getConfiguredBehavior`, which a test uses, is not part of the shown class and is not modelled.
- Redirection.Classify: an object passed as a plain value (to the static or private `when`) or as a constructor instance (to `whenConstructor`) is taken not to implement `Function`. `Value` has no function-object case, so `Classify` and `WhenConstructor` never store `Fn`. In Java such an object would be applied to the call's arguments at call time instead of returned. `StaticMocker.WhenThenHandle` and `ConstructorMocker.ConstructorReturnsStoredInstance` therefore hold only for objects that are not `Function`s. A Function reaches the tables only through `whenImplement`/`whenConstructorImplement`/`whenDefaultConstructor`.
- Runtime `instanceof Throwable`/`Function` tests: the kind of a stored answer is a tag chosen when it is stored (`Plain`/`Thrown`/`Fn`). For `StaticMockHandler.RegisterBehavior` the caller supplies the tag. Implementations are total functions without side effects. A Throwable that a `Function` throws, and the `ClassCastException` of an unchecked cast of a result, are not modelled.
- A stub's return value that does not fit the proxied method's return type (unboxing null, a `ClassCastException`): not modelled; the value is what the handler returns.
- V3Factory.SameCall: arguments are compared with `==` on `Value`, so an argument object whose class overrides `equals` (such as `User`) matches only itself. In Java `Objects.equals` would also match an equal copy. The same identity comparison decides the `MethodInterceptor` and `MockitoAdapter` lookups keyed by argument objects, and two `Float`/`Double` NaN bit patterns that Java's `equals` treats as equal are distinct here.
- V3Mock.WhenBuilder, V3Mock.VerifyBuilder.Method and V3Factory.MockBehavior: the argument array is stored as an immutable value, a snapshot rather than an alias. In Java the stub and the verification keep the caller's own array, so changing it afterwards changes what they match; the model does not capture that aliasing. Only `InvocationRecord` clones in the source, and `Snapshot` models that clone.
- ConstructorMocker.ConstructorMocker.WhenDefaultConstructor: the supplier is a total function, so a null supplier is not modelled. Java accepts it and throws a `NullPointerException` only when the constructor is later called.
- Null mocks, null classes, null method names, null users and null keys of the redirection tables are not modelled. Map keys are values (`JClass`, a receiver identity, a class name), so identity-keyed lookups are equality of those values and aliasing is not modelled. Class loaders are identities (`nat`).
- `ObjenesisEngine.Handle`, `Invoke` and `Intercept` require the argument array to fit the method's arity. A JDK proxy and cglib always pass such an array.
- `V3Factory.MockFactory.CountInvocations` and `ManualMockUserService.ManualMockUserService.GetSaveCount`: the count is an unbounded `nat`, so these do not model a Java `int` overflow after 2^31 calls.
- `UserModel.StringHash` and `UserModel.CalculateScore`: strings are sequences of Unicode scalar values, not UTF-16 code units. `String.hashCode` and `name.length()` therefore agree with Java only for characters of the Basic Multilingual Plane.
- `Jdk21Optimizer.ParseInt`: accepts ASCII digits only; `Integer.parseInt` would also accept other Unicode digits.
- `UserModel.GetScore` has no contract of its own: it is `calculateScore`, whose contract is on `CalculateScore`.
- `User.toString`: string formatting that nothing in the core depends on.
- `ManualMockUserService.ManualMockUserService.FindAllUsers`: `HashMap` iteration order is unspecified. The listing is stated up to order (`IsListing`), so its order is not modelled.
- The scenarios use English stand-ins for the test strings, which are in Chinese in the source. `StaticScenario` configures one method for its three steps.
