# Spring AOP, as a verified model

This project models the behaviour that the `hello.aop` Spring AOP tutorial sets up and
pins down with its tests. It covers four connected behaviours.

- **Pointcut matching.** The AspectJ designators the code base uses: `execution` with
  name wildcards, `.` and `..` package patterns, declaring-type and parameter patterns;
  `args`, `this`, `target`, `@target`, `@within`, `@annotation` and `@args`; and `&&`,
  `||` and `!`. A method is a record: declaring type, name, parameter types and
  annotations. A type's supertypes are kept in a class table (`World`). Matching also
  has a static verdict (yes / no / decide at run time), as Spring uses it before any
  call.
- **Proxies.** An interface-based (JDK) proxy and a subclass-based (CGLIB) proxy differ
  in the types the proxy object can be viewed as. That difference is what `this(...)`
  and a cast of the proxy see.
- **The advice chain.**
  - Aspects are ordered by `@Order`, lower first.
  - Inside one aspect, advice kinds go in the order around, before, after,
    after-returning, after-throwing.
  - The chain keeps the advice whose pointcut selects the call.
  - Running a call through the chain nests each advice around the next, and logs
    events on the way in and out.
  - Around advices: log-and-proceed, the transaction (start, then commit or rollback,
    then release) and `RetryAspect`'s bounded retry loop.
  - Before advices, with or without the argument list, and the after, after-returning
    and after-throwing advices.
- **Target methods.** A method either returns a fixed outcome, or is
  `ExamRepository.save` with its shared `int` counter, or logs lines and calls another
  method. That nested call goes either through `this` (no proxy, so no advice) or
  through a proxy (the callee's own chain runs).

The scenarios of the code base are lemmas over this model:
- `AspectV1` to `AspectV6Advice` on `OrderService` / `OrderRepository`;
- the exam example (`@Trace`, `@Retry(value = 4)`, five requests, six executions of
  `save`);
- the self-invocation problem of `CallServiceV0` and its fixes in `CallServiceV1` and
  `CallServiceV3`;
- the pointcut test classes, case by case.

Modules:
- `JavaInt`: Java `int` increment and `%`.
- `Outcomes`: values, throwables, how a call ends.
- `Types`: types, annotations, methods, the class table.
- `Glob`: `*` name patterns.
- `Pointcut`: the designators and their matching.
- `PointcutLaws`: general laws of matching.
- `Proxy`: proxy kinds and their type views.
- `Chain`: ordering and filtering of advice.
- `Exam`: `ExamRepository.save`.
- `Fixtures`: the classes and methods of the code base.
- `Aspects`: the aspects of the code base as values.
- `Interception`: running a call through a proxy.
- `InterceptionLaws`: nesting, the self-call bypass, the retry loop.
- `OrderScenarios`, `ExamScenario`, `InternalCall`, `PointcutCases`: the code base's
  examples and tests.

Each scenario lemma that fixes a class table states its premises as a predicate
(such as `OwnMethod`, `MemberWorld` or `ParentChildWorld`). A small lemma shows
that the application's own class table, `Fixtures.AppWorld`, satisfies it.

## Model

| member | source | states |
|---|---|---|
| JavaInt.Inc | src/main/java/hello/aop/exam/ExamRepository.java:30 | `seq++` on a Java `int` gives the one `int` value congruent to `seq + 1` modulo 2^32, as two's-complement addition does |
| JavaInt.IncIsTwosComplement | src/main/java/hello/aop/exam/ExamRepository.java:30 | any `int` value congruent to `x + 1` modulo 2^32 is the incremented value, so the increment is exactly two's-complement addition of one |
| JavaInt.Rem | src/main/java/hello/aop/exam/ExamRepository.java:33 | Java's `%` takes the sign of the dividend, lies strictly between `-b` and `b`, and differs from the dividend by a multiple of `b`: the remainder of division truncated toward zero |
| JavaInt.RemFiveZeroIsDivisibility | src/main/java/hello/aop/exam/ExamRepository.java:33 | `seq % 5 == 0` in Java holds exactly when `seq` is divisible by 5, negative values included |
| Exam.Save | src/main/java/hello/aop/exam/ExamRepository.java:29-38 | every execution bumps the counter by one (wrapping at the top); it throws IllegalStateException exactly when the new counter is a multiple of 5, and otherwise returns "ok" |
| Exam.NoTwoFailuresInARow | src/main/java/hello/aop/exam/ExamRepository.java:28-35 | an execution that follows a failed one always returns "ok", even across the wrap-around |
| Exam.ExecutionsCount | src/main/java/hello/aop/exam/ExamRepository.java:17-30 | `n` executions from counter value `k` leave the shared counter at `k + n` when nothing wraps |
| Exam.FailsExactlyOnMultiplesOfFive | src/main/java/hello/aop/exam/ExamRepository.java:17-35 | from the initial 0, execution number `n + 1` fails exactly when `n + 1` is a multiple of 5 |
| Types.AssignableTransitive | src/test/java/hello/aop/pointcut/ArgsTest.java:63-65 | assignability between reference types, on which `args` relies, is transitive in a well-formed class table |
| Types.FindAnnotation | src/main/java/hello/aop/exam/aop/RetryAspect.java:21-22 | the annotation lookup finds nothing exactly when the method has no annotation of that kind; what it finds has that kind and sits on the method |
| Types.Assignable | src/test/java/hello/aop/pointcut/ArgsTest.java:63-65 | a reference type is assignable to itself, to `Object` and to each of its supertypes in the class table; `Types.AssignableTransitive` and `PointcutLaws.ArgsNarrowing` are its laws |
| Types.FindFirst | src/main/java/hello/aop/exam/aop/RetryAspect.java:21-22 | the annotation lookup returns the first annotation of the kind, whatever precedes it of other kinds and whatever follows it |
| Glob.Match | src/test/java/hello/aop/pointcut/ExecutionTest.java:129-152 | the `*` name pattern of AspectJ: a `*` stands for any run of characters, every other character for itself; `Glob.PrefixMatch`, `Glob.SuffixMatch` and `Glob.InfixMatch` characterise it |
| Glob.LiteralMatch | src/test/java/hello/aop/pointcut/ExecutionTest.java:129-131 | a name pattern without `*` matches exactly itself |
| Glob.StarMatchesAll | src/test/java/hello/aop/pointcut/ExecutionTest.java:122-124 | the lone `*` matches every name |
| Glob.StarSkip | src/test/java/hello/aop/pointcut/ExecutionTest.java:143-145 | a leading `*` matches when the rest of the pattern matches some suffix of the name |
| Glob.PrefixMatch | src/test/java/hello/aop/pointcut/ExecutionTest.java:136-138 | `p*` matches exactly the names that start with `p` |
| Glob.SuffixMatch | src/main/java/hello/aop/order/aop/Pointcuts.java:15-16 | `*p` matches exactly the names that end with `p` |
| Glob.InfixMatch | src/test/java/hello/aop/pointcut/ExecutionTest.java:143-145 | `*p*` matches exactly the names that contain `p` |
| Pointcut.ParamsMatch | src/test/java/hello/aop/pointcut/ExecutionTest.java:253-301 | a parameter pattern read left to right: a type accepts its own type (or, for `args`, any subtype), `*` one parameter, `..` any number; `PointcutLaws.PositionalParams`, `PointcutLaws.LeadingThenAny` and `PointcutLaws.AnyParamsMatchesAll` characterise it |
| Pointcut.DeclaringMatches | src/test/java/hello/aop/pointcut/ExecutionTest.java:203-242 | a declaring-type pattern accepts a method when it names its declaring type or a supertype that itself declares the method; `PointcutLaws.DeclaredOnlyHere` is its law |
| Pointcut.ExecutionMatches | src/test/java/hello/aop/pointcut/ExecutionTest.java:96-106 | `execution` checks visibility, return type, declaring type, name and parameters together, from the method's signature only |
| Pointcut.Eval | src/test/java/hello/aop/pointcut/ThisTargetTest.java:79-142 | the runtime verdict of a designator on a call: `execution` reads the signature, `args` the argument classes, `this` the proxy's type view, `target` and `@target` the target class, `@within` the declaring type; conjunction, disjunction and negation combine them |
| Pointcut.StaticMatch | src/test/java/hello/aop/pointcut/ExecutionTest.java:96-106 | the verdict before any call: yes or no for signature designators, undecided for those that need the call; `PointcutLaws.StaticSound` and `PointcutLaws.StaticDecided` relate it to `Pointcut.Eval` |
| Pointcut.TypeMatch | src/test/java/hello/aop/pointcut/ExecutionTest.java:159-188 | AspectJ's type-name pattern against a qualified name: `..` stands for zero or more package segments and every other segment is a `*` name pattern for exactly one segment; `PointcutLaws.LiteralPrefix`, `PointcutLaws.GapThenLast`, `PointcutLaws.PackageTreeMatch`, `PointcutLaws.PackageMatch`, `PointcutLaws.ExactTypeMatch` and `PointcutLaws.NameSuffixMatch` characterise it |
| Pointcut.Lits | src/test/java/hello/aop/pointcut/ExecutionTest.java:159-161 | a literally spelled qualified name is the pattern with one literal segment per name, in order |
| PointcutLaws.LiteralPrefix | src/test/java/hello/aop/pointcut/ExecutionTest.java:159-175 | a literal package prefix in a type pattern consumes exactly those leading segments of the qualified name |
| PointcutLaws.GapThenLast | src/test/java/hello/aop/pointcut/ExecutionTest.java:179-188 | `..` followed by one name pattern matches any non-empty run of segments whose last one matches |
| PointcutLaws.PackageTreeMatch | src/test/java/hello/aop/pointcut/ExecutionTest.java:179-188 | `pkg..*` matches exactly the types in `pkg` or any of its sub-packages |
| PointcutLaws.PackageMatch | src/test/java/hello/aop/pointcut/ExecutionTest.java:166-175 | `pkg.*` matches exactly the types directly in `pkg`, and none in a sub-package |
| PointcutLaws.ExactTypeMatch | src/test/java/hello/aop/pointcut/ExecutionTest.java:204-206 | a fully spelled type name matches exactly that type |
| PointcutLaws.NameSuffixMatch | src/main/java/hello/aop/order/aop/Pointcuts.java:15-16 | `*..*Service` matches exactly the types in some named package whose simple name ends in `Service` |
| PointcutLaws.AnyParamsMatchesAll | src/test/java/hello/aop/pointcut/ExecutionTest.java:286-288 | `(..)` accepts every parameter list, the empty one included |
| PointcutLaws.PositionalParams | src/test/java/hello/aop/pointcut/ExecutionTest.java:254-278 | without `..` a parameter pattern is positional: same length, and each element accepts its parameter |
| PointcutLaws.LeadingThenAny | src/test/java/hello/aop/pointcut/ExecutionTest.java:299-301 | `(T, ..)` accepts exactly the lists with at least one parameter whose first is accepted by `T` |
| PointcutLaws.MatchFitsArity | src/test/java/hello/aop/pointcut/ExecutionTest.java:254-301 | a parameter pattern only ever accepts lists whose length its `*` and type elements and its `..` allow |
| PointcutLaws.ArgsNarrowing | src/test/java/hello/aop/pointcut/ArgsTest.java:18-23 | an `args` pattern that accepts the declared parameter types accepts every runtime argument list the declaration allows |
| PointcutLaws.StaticSound | src/test/java/hello/aop/pointcut/AtTargetAtWithinTest.java:106-117 | a static "yes" means every consistent call matches, and a static "no" means none does |
| PointcutLaws.StaticDecided | src/test/java/hello/aop/pointcut/ArgsTest.java:18-23 | designators read from the signature alone always get a decided static verdict, equal to the run-time one |
| PointcutLaws.DeclaredOnlyHere | src/test/java/hello/aop/pointcut/ExecutionTest.java:218-225 | for a method that no supertype declares, a declaring-type pattern matches exactly when it matches the method's own class |
| PointcutLaws.ExecutionAnyMatchesAll | src/test/java/hello/aop/pointcut/ExecutionTest.java:122-124 | `execution(* *(..))` selects every method |
| PointcutLaws.PackageTreeSelects | src/main/java/hello/aop/exam/aop/CallLogAspect.java:18 | for a method that no supertype declares, `execution(* pkg..*.*(..))` selects it exactly when its type is in `pkg` or below |
| PointcutLaws.PackageTreeSelectsAll | src/main/java/hello/aop/exam/aop/CallLogAspect.java:18 | `execution(* pkg..*.*(..))` selects every method of a type in `pkg` or below, whatever its supertypes declare |
| Proxy.ChooseKind | src/test/java/hello/aop/proxyvs/ProxyCastingTest.java:29-35 | `proxyTargetClass`, or a target with no interface, gives a subclass-based proxy, otherwise an interface-based one; `Proxy.NoInterfaceMeansSubclass` is its law |
| Proxy.ThisView | src/test/java/hello/aop/pointcut/ThisTargetTest.java:79-142 | the types a proxy object is an instance of: the target's interfaces for an interface-based proxy, the target class and all its supertypes for a subclass-based one |
| Proxy.Cast | src/test/java/hello/aop/proxyvs/ProxyCastingTest.java:38-48 | a cast of the proxy succeeds exactly when the type is in its type view, and throws ClassCastException otherwise |
| Proxy.SubclassViewIsAssignability | src/test/java/hello/aop/proxyvs/ProxyCastingTest.java:53-64 | a subclass-based proxy can be viewed as exactly the types the target class is assignable to |
| Proxy.InterfaceViewHasNoClass | src/test/java/hello/aop/proxyvs/ProxyCastingTest.java:38-48 | casting an interface-based proxy to any class other than Object throws ClassCastException |
| Proxy.InterfaceViewWithinSubclassView | src/test/java/hello/aop/proxyvs/ProxyCastingTest.java:15-19 | whatever an interface-based proxy can be viewed as, a subclass-based one can too |
| Proxy.NoInterfaceMeansSubclass | src/test/java/hello/aop/proxyvs/ProxyCastingTest.java:19 | a target with no interface gets a subclass-based proxy whatever `proxyTargetClass` says |
| Chain.Insert | src/main/java/hello/aop/order/aop/AspectV5Order.java:11-16 | places an element before the first one whose key is not smaller; `Chain.InsertSorted`, `Chain.InsertPermutes` and `Chain.InsertWithKey` are its laws |
| Chain.SortBy | src/main/java/hello/aop/order/aop/AspectV5Order.java:11-16 | a stable sort by key; `Chain.SortBySorted`, `Chain.SortByPermutes` and `Chain.SortByStable` are its laws |
| Chain.InsertWithKey | src/main/java/hello/aop/order/aop/AspectV6Advice.java:87-90 | inserting an element leaves the elements of every other key in place and puts it first among those of its own key |
| Chain.InsertPermutes | src/main/java/hello/aop/order/aop/AspectV5Order.java:11-16 | inserting into the sorted chain adds exactly that one element |
| Chain.InsertSorted | src/main/java/hello/aop/order/aop/AspectV5Order.java:11-16 | inserting into a chain sorted by key keeps it sorted |
| Chain.SortBySorted | src/main/java/hello/aop/order/aop/AspectV5Order.java:11-16 | the sorted chain is in key order |
| Chain.SortByPermutes | src/main/java/hello/aop/order/aop/AspectV5Order.java:11-16 | sorting neither loses nor invents an element |
| Chain.SortByTies | src/main/java/hello/aop/order/aop/AspectV6Advice.java:87-90 | an input whose keys are all equal comes out unchanged |
| Chain.SortByStable | src/main/java/hello/aop/order/aop/AspectV6Advice.java:87-90 | sorting is stable: for every key, the elements with that key come out in the order they went in |
| Chain.Rank | src/main/java/hello/aop/order/aop/AspectV6Advice.java:83 | the precedence of advice kinds inside one aspect: around, before, after, after-returning, after-throwing, outermost first; `Chain.Precedence` and `OrderScenarios.KindPrecedence` apply it |
| Chain.Precedence | src/main/java/hello/aop/order/aop/AspectV6Advice.java:82-85 | an aspect's advice methods come out in kind precedence (around, before, after, after-returning, after-throwing) and all of them are kept |
| Chain.Outermost | src/main/java/hello/aop/order/aop/AspectV5Order.java:11-16 | aspects come out in `@Order` order, lower first, and all of them are kept |
| Chain.Layer | src/main/java/hello/aop/order/aop/AspectV5Order.java:11-16 | each advice of an aspect carries that aspect's name and `@Order`, in the given order |
| Chain.ArgTypes | src/test/java/hello/aop/pointcut/ArgsTest.java:18-23 | the argument types `args` sees are the runtime classes of the argument values, one per argument |
| Chain.Applies | src/test/java/hello/aop/pointcut/AtTargetAtWithinTest.java:106-117 | an advice applies to a call when its pointcut holds for the call's method and runtime context |
| Chain.ChainFor | src/main/java/hello/aop/order/aop/AspectV5Order.java:11-16 | a call's chain: aspects sorted by `@Order`, each aspect's advice in kind precedence, only the advice that applies; `Chain.ChainMembers` and `Chain.ChainOrdered` are its laws |
| Chain.Applicable | src/test/java/hello/aop/pointcut/AtTargetAtWithinTest.java:106-117 | filtering keeps exactly the advice whose pointcut matches the live call |
| Chain.LayersMembers | src/main/java/hello/aop/order/aop/AspectV6Advice.java:82-91 | the unfiltered chain holds exactly the advice methods the aspects declare |
| Chain.LayerMembers | src/main/java/hello/aop/order/aop/AspectV6Advice.java:82-91 | one aspect's layer holds exactly the descriptors of its advice methods |
| Chain.ChainMembers | src/main/java/hello/aop/order/aop/AspectV5Order.java:11-16 | a proxy's chain for a call holds exactly the registered advice whose pointcut selects the call |
| Chain.LayersAbove | src/main/java/hello/aop/order/aop/AspectV5Order.java:35-37 | a lower bound on every aspect's `@Order` is also a lower bound on every advice's `@Order` |
| Chain.LayersOrdered | src/main/java/hello/aop/order/aop/AspectV5Order.java:35-37 | laying out aspects sorted by `@Order` gives advice sorted by `@Order` |
| Chain.ApplicableKeepsOrder | src/main/java/hello/aop/order/aop/AspectV5Order.java:35-37 | filtering a chain sorted by `@Order` keeps it sorted |
| Chain.ChainOrdered | src/main/java/hello/aop/order/aop/AspectV5Order.java:35-37 | along every proxy chain the `@Order` values never decrease: lower orders are entered first |
| Chain.TwoAspects | src/main/java/hello/aop/order/aop/AspectV5Order.java:26-38 | the aspect with the lower `@Order` is outer, in whichever order the two are registered |
| Chain.TiedAspects | src/test/java/hello/aop/exam/ExamTest.java:14 | two aspects with equal `@Order` stay in registration order |
| Chain.TwoLayers | src/main/java/hello/aop/order/aop/AspectV5Order.java:11-16 | two aspects give the first aspect's advice and then the second's |
| Chain.SingleAdviceLayer | src/main/java/hello/aop/order/aop/AspectV1.java:38-47 | an aspect with a single advice method contributes exactly that advice |
| Chain.ApplicableAppend | src/test/java/hello/aop/pointcut/ThisTargetTest.java:79-142 | filtering a chain filters each part on its own |
| Chain.AllButThird | src/test/java/hello/aop/pointcut/ThisTargetTest.java:106-116 | in a four-advice chain whose other advices all apply, the third stays exactly when its pointcut matches |
| Chain.OnePointcut | src/main/java/hello/aop/order/aop/AspectV6Advice.java:58-151 | a chain whose advice all share one pointcut that matches the call is kept whole |
| Interception.Entry | src/main/java/hello/aop/order/aop/AspectV6Advice.java:58-109 | what an advice logs before it proceeds: the around advices' opening line, the before advice's line |
| Interception.Exit | src/main/java/hello/aop/order/aop/AspectV6Advice.java:58-154 | what an advice logs after the inner call ended: commit and release on return, rollback and release on an Exception, release only on an Error; `[return]` only on return, `[ex]` only on an Exception, `[after]` always |
| Interception.RunChain | src/main/java/hello/aop/order/aop/AspectV6Advice.java:58-81 | a call entering the chain: each advice wraps the rest and the target method is innermost; `InterceptionLaws.Nesting` characterises it |
| Interception.RetryLoop | src/main/java/hello/aop/exam/aop/RetryAspect.java:21-48 | the retry advice's attempts from a given count: proceed, return the first success, let an Error through, keep each caught Exception and throw the last one once the bound is passed; `InterceptionLaws.DoRetry` is its loop form |
| Interception.Exec | src/main/java/hello/aop/internalcall/CallServiceV0.java:28-38 | the target method itself: a fixed outcome, `ExamRepository.save`, or log lines followed by a nested call through `this` or through a proxy |
| Interception.Invoke | src/main/java/hello/aop/order/aop/AspectV5Order.java:11-16 | a call through the proxy runs that call's chain around the target |
| Interception.RetryMax | src/main/java/hello/aop/exam/aop/RetryAspect.java:28 | the retry bound is the `value` of the `@Retry` that reflection finds on the method, and the declared default 3 when that annotation has no value or the method has none |
| Interception.Lines | src/main/java/hello/aop/internalcall/CallServiceV0.java:28-38 | a method's own log lines are logged one event per line, in order |
| InterceptionLaws.Nesting | src/main/java/hello/aop/order/aop/AspectV5Order.java:35-37 | without a retry advice, a chain enters its advice outermost first, runs the target once, leaves innermost first, and returns the target's outcome and counter |
| InterceptionLaws.TwoWrappers | src/main/java/hello/aop/order/aop/AspectV5Order.java:35-37 | of two wrappers the first is entered first and left last |
| InterceptionLaws.OuterFirstLastOut | src/main/java/hello/aop/order/aop/AspectV5Order.java:35-37 | splitting a chain into an outer and an inner part: outer entries come first and outer exits last |
| InterceptionLaws.LogAlone | src/main/java/hello/aop/order/aop/AspectV1.java:40-47 | a log-and-proceed around advice logs once, runs the target once and returns or rethrows exactly what the target did |
| InterceptionLaws.SelfCallsUnadvised | src/main/java/hello/aop/internalcall/CallServiceV0.java:28-33 | a method whose nested calls all go through `this` runs exactly as if no aspect were registered |
| InterceptionLaws.ProxiedCallOutcome | src/main/java/hello/aop/internalcall/CallServiceV1.java:36-42 | a method calling through a proxy logs its lines, then whatever the proxied call logs; it returns normally exactly when that call does, and otherwise rethrows it |
| InterceptionLaws.ProxiedCallAdvised | src/main/java/hello/aop/internalcall/CallServiceV3.java:26-32 | on a nested call through a proxy, the callee's own chain wraps the callee |
| InterceptionLaws.DoRetry | src/main/java/hello/aop/exam/aop/RetryAspect.java:22-48 | the retry loop agrees with the reference definition. With a bound below 1 it never proceeds and throws the null holder. Otherwise it proceeds between 1 and `maxRetry` times, ends with the last attempt's outcome, and ends in an Exception only after `maxRetry` attempts |
| InterceptionLaws.RetryLetsErrorsThrough | src/main/java/hello/aop/exam/aop/RetryAspect.java:39 | an Error thrown by an attempt ends the retry loop at once with that Error |
| InterceptionLaws.RetryMaxIsDeclaredValue | src/main/java/hello/aop/exam/aop/RetryAspect.java:21-28 | for every method, wherever `@Retry(value = n)` sits among its annotations, the bound is `n`; a `@Retry` without a value gives 3 |
| InterceptionLaws.RetriedSave | src/main/java/hello/aop/exam/aop/RetryAspect.java:28-47 | retrying `save`: a bound below 1 throws the null holder without running it; a first success is returned; a failure surfaces under a bound of 1 and is retried to "ok" under any bound of 2 or more |
| OrderScenarios.AllOrderSelects | src/main/java/hello/aop/order/aop/Pointcuts.java:11-12 | `allOrder()` selects a method exactly when its class is in `hello.aop.order` or below |
| OrderScenarios.AllServiceSelects | src/main/java/hello/aop/order/aop/Pointcuts.java:15-16 | `allService()` selects a method exactly when its class sits in a named package and its simple name ends in `Service` |
| OrderScenarios.OrderAndServiceSelects | src/main/java/hello/aop/order/aop/Pointcuts.java:19-20 | `orderAndService()` selects exactly what both `allOrder()` and `allService()` select, so never more than either |
| OrderScenarios.OrderMethodsOwn | src/main/java/hello/aop/order/aop/AspectV3.java:26-39 | neither `orderItem` nor `OrderRepository.save` is inherited in the application's class table |
| OrderScenarios.OrderSelection | src/main/java/hello/aop/order/aop/AspectV3.java:42-60 | `allOrder()` selects both order methods; `allOrder() && allService()` selects `orderItem` and not `OrderRepository.save` |
| OrderScenarios.ServiceSelected | src/main/java/hello/aop/order/aop/AspectV3.java:58 | `OrderService.orderItem` gets both the log and the transaction pointcut |
| OrderScenarios.RepositorySelected | src/main/java/hello/aop/order/aop/AspectV3.java:42-58 | `OrderRepository.save` gets the log pointcut and not the transaction one |
| OrderScenarios.V5Layers | src/main/java/hello/aop/order/aop/AspectV5Order.java:26-38 | TxAspect (`@Order(1)`) comes before LogAspect (`@Order(2)`) in whichever order they are registered |
| OrderScenarios.V5Advice | src/main/java/hello/aop/order/aop/AspectV5Order.java:28-41 | LogAspect's advice logs and proceeds on `allOrder()`; TxAspect's is the transaction on `orderAndService()` |
| OrderScenarios.V5ItemChain | src/main/java/hello/aop/order/aop/AspectV5Order.java:26-41 | `orderItem` gets the transaction outside the log |
| OrderScenarios.V5SaveChain | src/main/java/hello/aop/order/aop/AspectV5Order.java:28-40 | `OrderRepository.save` gets the log advice only |
| OrderScenarios.V5Nesting | src/main/java/hello/aop/order/aop/AspectV5Order.java:26-56 | on `orderItem`: transaction start, log, target, then commit and release on return, or rollback and release and the same exception rethrown |
| OrderScenarios.TransactionAroundLog | src/main/java/hello/aop/order/aop/AspectV5Order.java:41-56 | a transaction around a log around the target: start, log, target, then commit or rollback, then release; the target's outcome and counter pass through |
| OrderScenarios.TransactionLogEvents | src/main/java/hello/aop/order/aop/AspectV5Order.java:42-56 | the events a transaction around a log adds around the target's events, on return and on an Exception |
| OrderScenarios.V5RepositoryLogOnly | src/main/java/hello/aop/order/aop/AspectV5Order.java:28-31 | on `OrderRepository.save`: one log line, and the target's outcome unchanged |
| OrderScenarios.DoLogChain | src/main/java/hello/aop/order/aop/AspectV2.java:29-37 | an aspect whose one advice is `doLog` on `allOrder()` puts it on exactly the methods of the order package tree |
| OrderScenarios.DoLogRun | src/main/java/hello/aop/order/aop/AspectV2.java:36-41 | such an aspect logs the signature, proceeds once and returns or rethrows what the target did on an order-tree method, and leaves every other method alone |
| OrderScenarios.V1Run | src/main/java/hello/aop/order/aop/AspectV1.java:38-47 | AspectV1: the same, with the inline `execution` pointcut |
| OrderScenarios.V2Run | src/main/java/hello/aop/order/aop/AspectV2.java:29-41 | AspectV2: the same through the named pointcut, so it selects what AspectV1 selects |
| OrderScenarios.LogThenTransactionLayers | src/main/java/hello/aop/order/aop/AspectV3.java:42-60 | two around advices of one aspect keep declaration order: `doLog` then `doTransaction` |
| OrderScenarios.LogThenTransactionItemChain | src/main/java/hello/aop/order/aop/AspectV3.java:42-60 | `orderItem` gets `doLog` outside `doTransaction` |
| OrderScenarios.LogThenTransactionSaveChain | src/main/java/hello/aop/order/aop/AspectV3.java:42-58 | `OrderRepository.save` gets `doLog` only |
| OrderScenarios.LogAroundTransaction | src/main/java/hello/aop/order/aop/AspectV3.java:43-80 | a log around a transaction around the target: log, start, target, then commit or rollback, then release; the target's outcome and counter pass through |
| OrderScenarios.LogTransactionEvents | src/main/java/hello/aop/order/aop/AspectV3.java:60-80 | the events a log around a transaction adds around the target's events, on return and on an Exception |
| OrderScenarios.LogThenTransactionItem | src/test/java/hello/aop/AopTest.java:49-57 | on `orderItem`, with AspectV3 or AspectV4Pointcut registered: log, start, target, then commit and release with the result returned, or rollback and release with the same exception rethrown |
| OrderScenarios.LogThenTransactionSave | src/main/java/hello/aop/order/aop/AspectV3.java:42-50 | on `OrderRepository.save`: one log line, and the target's outcome unchanged |
| OrderScenarios.V3Item | src/test/java/hello/aop/AopTest.java:24-57 | AopTest's AspectV3 on `orderItem`: logged and wrapped in a transaction, the exception of `orderItem("ex")` rethrown unchanged |
| OrderScenarios.V4Item | src/main/java/hello/aop/order/aop/AspectV4Pointcut.java:25-50 | AspectV4Pointcut, bound to the shared `Pointcuts`, gives the same trace on `orderItem` as AspectV3 |
| OrderScenarios.SortTwo | src/main/java/hello/aop/order/aop/AspectV6Advice.java:82-85 | of two advice methods, the one with the earlier kind comes first |
| OrderScenarios.SortThree | src/main/java/hello/aop/order/aop/AspectV6Advice.java:82-85 | three advice methods come out in kind precedence |
| OrderScenarios.SortFour | src/main/java/hello/aop/order/aop/AspectV6Advice.java:82-85 | four advice methods come out in kind precedence |
| OrderScenarios.KindPrecedence | src/main/java/hello/aop/order/aop/AspectV6Advice.java:82-85 | five advice methods declared around, before, after-returning, after-throwing, after run as around, before, after, after-returning, after-throwing |
| OrderScenarios.V6Layers | src/main/java/hello/aop/order/aop/AspectV6Advice.java:58-154 | AspectV6Advice's five advice methods in kind precedence |
| OrderScenarios.V6OnePointcut | src/main/java/hello/aop/order/aop/AspectV6Advice.java:58-151 | every advice of AspectV6Advice selects with `orderAndService()` |
| OrderScenarios.V6ItemChain | src/main/java/hello/aop/order/aop/AspectV6Advice.java:58-154 | `orderItem` gets all five advice methods, in kind precedence |
| OrderScenarios.FiveEntries | src/main/java/hello/aop/order/aop/AspectV6Advice.java:61-109 | on the way in, only the around advice (transaction start) and the before advice log |
| OrderScenarios.FiveExitsReturned | src/main/java/hello/aop/order/aop/AspectV6Advice.java:126-154 | on a normal return: after-returning with the value, after, commit, release |
| OrderScenarios.FiveExitsThrew | src/main/java/hello/aop/order/aop/AspectV6Advice.java:140-154 | on an Exception: after-throwing with the exception, after, rollback, release |
| OrderScenarios.AllKinds | src/main/java/hello/aop/order/aop/AspectV6Advice.java:58-154 | the five kinds around one call: start, before, target, then the return or the exception exits; the outcome passes through unchanged |
| OrderScenarios.V6Kinds | src/main/java/hello/aop/order/aop/AspectV6Advice.java:106-154 | AspectV6Advice's chain has the five kinds with the tags `[before]`, `[after]`, `[return]`, `[ex]` |
| OrderScenarios.V6Trace | src/main/java/hello/aop/order/aop/AspectV6Advice.java:58-154 | AspectV6Advice on `orderItem`: all five advice methods run, nested in kind precedence, and the outcome passes through |
| ExamScenario.ExamLayers | src/test/java/hello/aop/exam/ExamTest.java:14 | TraceAspect and RetryAspect have equal precedence, so their registration order is their nesting order |
| ExamScenario.TraceSelects | src/main/java/hello/aop/exam/aop/TraceAspect.java:23 | the trace advice selects exactly the methods annotated `@Trace` |
| ExamScenario.RetrySelects | src/main/java/hello/aop/exam/aop/RetryAspect.java:21 | the retry advice selects exactly the methods annotated `@Retry` |
| ExamScenario.RequestAnnotations | src/main/java/hello/aop/exam/ExamService.java:15-16 | `request` carries `@Trace` and not `@Retry` |
| ExamScenario.RequestChain | src/main/java/hello/aop/exam/ExamService.java:15-16 | `request` gets the trace advice only |
| ExamScenario.SaveChain | src/main/java/hello/aop/exam/ExamRepository.java:27-29 | an annotated `save` gets both advices, in registration order |
| ExamScenario.BothSelect | src/main/java/hello/aop/exam/ExamRepository.java:27-28 | both advices select a `save` carrying both annotations |
| ExamScenario.PlainOutsideRetry | src/main/java/hello/aop/exam/aop/TraceAspect.java:23-31 | with the trace advice outside the retry, the retry loop runs the bare target |
| ExamScenario.RetryOutsidePlain | src/main/java/hello/aop/exam/aop/RetryAspect.java:32-38 | with the retry outside the trace advice, every attempt runs the trace advice |
| ExamScenario.RetryBound | src/main/java/hello/aop/exam/annotation/Retry.java:17 | `@Retry(value = n)` bounds the retry at `n`; `@Retry` with no value at the default 3 |
| ExamScenario.ProxiedSave | src/main/java/hello/aop/exam/ExamRepository.java:27-38 | the proxied `save` ends as the retry over `save` does, whichever advice is outer |
| ExamScenario.TraceOutside | src/main/java/hello/aop/exam/ExamRepository.java:27-38 | the proxied `save` with trace outside retry ends as the retry over `save` does |
| ExamScenario.RetryOutside | src/main/java/hello/aop/exam/ExamRepository.java:27-38 | the proxied `save` with retry outside trace ends as the retry over `save` does |
| ExamScenario.RequestStep | src/main/java/hello/aop/exam/ExamService.java:15-18 | one `request`: the call and its argument are traced first; `request` returns normally exactly when the proxied `save` does and otherwise rethrows what it threw; the counter is what `save` left |
| ExamScenario.TracedProxyCall | src/main/java/hello/aop/exam/aop/TraceAspect.java:24-31 | an argument-tracing before advice on a delegating method logs first, then the delegate's events, and passes the outcome through |
| ExamScenario.ArgumentTrace | src/main/java/hello/aop/exam/aop/TraceAspect.java:24-31 | an argument-tracing before advice logs the signature and arguments, then leaves the target's outcome and counter unchanged |
| ExamScenario.RequestSucceeds | src/main/java/hello/aop/exam/ExamRepository.java:28-35 | under a retry bound of 2 or more every request returns normally, running `save` once, or twice when the first run fails |
| ExamScenario.RequestUnretried | src/main/java/hello/aop/exam/ExamRepository.java:33-35 | under a bound of 1 a request fails exactly when its one `save` does, with that IllegalStateException |
| ExamScenario.Requests | src/test/java/hello/aop/exam/ExamTest.java:24-29 | a run of requests has one outcome per request |
| ExamScenario.RequestsSucceed | src/test/java/hello/aop/exam/ExamTest.java:24-29 | under a retry bound of 2 or more, every request of every run returns normally |
| ExamScenario.RequestsCounter | src/test/java/hello/aop/exam/ExamTest.java:24-29 | under such a bound, the counter after a run moves one request at a time, each by one or two executions |
| ExamScenario.ExamSaveAnnotated | src/main/java/hello/aop/exam/ExamRepository.java:27-28 | `save` as declared carries `@Trace` and `@Retry` with a bound of 4 |
| ExamScenario.FiveRequestsCounter | src/test/java/hello/aop/exam/ExamTest.java:24-29 | five requests from a fresh counter leave it at 6 |
| ExamScenario.ExamTestRun | src/test/java/hello/aop/exam/ExamTest.java:24-29 | ExamTest's five requests all return normally, and `save` runs six times in all |
| ExamScenario.PlainRequests | src/test/java/hello/aop/exam/ExamTest.java:24-29 | when each request acts as one plain `save`, request `i` ends as the `i`-th `save` does and the counter ends after one execution per request |
| ExamScenario.RequestsUnretried | src/main/java/hello/aop/exam/ExamRepository.java:33-35 | under a bound of 1, request `i` returns normally exactly when the `i`-th `save` does, and otherwise throws what it threw |
| ExamScenario.ExamTestUnretried | src/main/java/hello/aop/exam/ExamRepository.java:33-35 | with a bound of 1, ExamTest's fifth request throws the IllegalStateException raised at counter 5 after five executions |
| ExamScenario.FirstFiveSaves | src/main/java/hello/aop/exam/ExamRepository.java:17-37 | from a fresh counter: four successes, then the failure at 5 |
| InternalCall.CallLogLayers | src/main/java/hello/aop/exam/aop/CallLogAspect.java:11-22 | CallLogAspect contributes its one before advice |
| InternalCall.CallLogChain | src/main/java/hello/aop/exam/aop/CallLogAspect.java:18 | a call gets the log advice exactly when its method's class is in `hello.aop.internalcall` or below |
| InternalCall.SignatureBefore | src/main/java/hello/aop/exam/aop/CallLogAspect.java:18-22 | a signature-logging before advice logs first and leaves the target's outcome and counter unchanged |
| InternalCall.CallLogPassesThrough | src/main/java/hello/aop/exam/aop/CallLogAspect.java:19-22 | with CallLogAspect, a selected call logs one line and returns or throws exactly what the target does |
| InternalCall.ThisRouteTrace | src/main/java/hello/aop/internalcall/CallServiceV0.java:28-33 | an advised method calling another one on `this`: the advice runs for the outer method only |
| InternalCall.NestedLogged | src/main/java/hello/aop/internalcall/CallServiceV1.java:41-46 | a nested call through a proxy whose chain is the log advice: the advice, then the callee's line |
| InternalCall.ProxyRouteTrace | src/main/java/hello/aop/internalcall/CallServiceV1.java:36-42 | an advised method calling through a proxy: advice, own line, advice again, the callee's line |
| InternalCall.AppInternalCallWorld | src/main/java/hello/aop/internalcall/InternalService.java:12-16 | none of the four classes inherits its methods in the application's class table |
| InternalCall.InternalCallChain | src/main/java/hello/aop/internalcall/InternalService.java:12-16 | every method of the four classes gets exactly the log advice |
| InternalCall.V0ExternalTrace | src/test/java/hello/aop/internalcall/CallServiceV0Test.java:33-36 | `CallServiceV0.external` through the proxy: advice, "call external", "call internal", with no advice on the nested `internal` |
| InternalCall.V0NestedUnadvised | src/main/java/hello/aop/internalcall/CallServiceV0.java:28-33 | `CallServiceV0.external` itself runs as if no aspect were registered |
| InternalCall.V0InternalTrace | src/test/java/hello/aop/internalcall/CallServiceV0Test.java:38-41 | `CallServiceV0.internal` called through the proxy is advised |
| InternalCall.V1ExternalTrace | src/test/java/hello/aop/internalcall/CallServiceV1Test.java:27-30 | `CallServiceV1.external` through the proxy: advice, "call external", advice, "call internal" |
| InternalCall.V3ExternalTrace | src/main/java/hello/aop/internalcall/CallServiceV3.java:26-32 | `CallServiceV3.external` through the proxy: advice, "call external", advice on `InternalService.internal`, "call internal" |
| PointcutCases.AppMemberWorld | src/main/java/hello/aop/member/MemberServiceImpl.java:9-23 | the application's class table has MemberServiceImpl implementing MemberService, which declares `hello` only |
| PointcutCases.HelloDeclaring | src/test/java/hello/aop/pointcut/ExecutionTest.java:211-213 | `hello` is selected by a declaring-type pattern exactly when it names MemberServiceImpl or MemberService |
| PointcutCases.InternalOwn | src/main/java/hello/aop/member/MemberServiceImpl.java:20-23 | `internal` is declared by MemberServiceImpl only |
| PointcutCases.NameOnly | src/test/java/hello/aop/pointcut/ExecutionTest.java:129-152 | `execution(* name(..))` is decided by the name pattern alone |
| PointcutCases.DeclaringOnly | src/test/java/hello/aop/pointcut/ExecutionTest.java:204-213 | `execution(* <type>.*(..))` is decided by the declaring-type pattern alone |
| PointcutCases.ParamsOnly | src/test/java/hello/aop/pointcut/ExecutionTest.java:254-301 | `execution(* *(<params>))` is decided by the parameter pattern alone, on declared types |
| PointcutCases.ExactMatch | src/test/java/hello/aop/pointcut/ExecutionTest.java:97-105 | the fully spelled pattern selects `hello` |
| PointcutCases.AllMatch | src/test/java/hello/aop/pointcut/ExecutionTest.java:122-124 | `execution(* *(..))` selects `hello` |
| PointcutCases.NamePatterns | src/test/java/hello/aop/pointcut/ExecutionTest.java:129-152 | `hello`, `hel*` and `*el*` match the name `hello`; `nono` does not |
| PointcutCases.NameMatches | src/test/java/hello/aop/pointcut/ExecutionTest.java:129-152 | the four name cases as `execution` pointcuts on `hello` |
| PointcutCases.PackageExactMatch1 | src/test/java/hello/aop/pointcut/ExecutionTest.java:159-161 | `hello.aop.member.MemberServiceImpl.hello(..)` selects `hello` |
| PointcutCases.PackageExact | src/test/java/hello/aop/pointcut/ExecutionTest.java:166-175 | `hello.aop.member.*.*(..)` selects `hello`; `hello.aop.*.*(..)` does not |
| PointcutCases.PackageSubPackages | src/test/java/hello/aop/pointcut/ExecutionTest.java:179-188 | `hello.aop.member..*.*(..)` and `hello.aop..*.*(..)` select `hello` |
| PointcutCases.TypeExactMatch | src/test/java/hello/aop/pointcut/ExecutionTest.java:204-225 | `hello.aop.member.MemberServiceImpl.*(..)` selects both `hello` and `internal` |
| PointcutCases.TypeMatchSuperType | src/test/java/hello/aop/pointcut/ExecutionTest.java:211-242 | naming the interface selects `hello`, which it declares, and not `internal`, which it does not |
| PointcutCases.ParamPatterns | src/test/java/hello/aop/pointcut/ExecutionTest.java:254-301 | against `(String)`: `(String)`, `(*)`, `(..)`, `(String, ..)` match; `()` and `(*, *)` do not |
| PointcutCases.ParamMatches | src/test/java/hello/aop/pointcut/ExecutionTest.java:254-301 | the same six cases as `execution` pointcuts on `hello` |
| PointcutCases.HelloArgTypes | src/test/java/hello/aop/pointcut/ArgsTest.java:53-61 | `hello("helloA")` passes one argument of runtime class String |
| PointcutCases.ArgsAgainstExecution | src/test/java/hello/aop/pointcut/ArgsTest.java:86-107 | on a String argument, `args(T)` matches exactly when String is assignable to `T`, while `execution(* *(T))` matches exactly when `T` is String |
| PointcutCases.ArgsPatterns | src/test/java/hello/aop/pointcut/ArgsTest.java:53-79 | `args(String)`, `args(Object)`, `args(..)`, `args(*)` and `args(String, ..)` match a String argument; `args()` does not |
| PointcutCases.ArgsVsExecution | src/test/java/hello/aop/pointcut/ArgsTest.java:86-107 | `execution` with String matches, with Serializable or Object it does not; `args` with Serializable or Object does. These are AspectJ's rules: the test itself stops at the malformed pointcut on line 93 (see Left out) |
| PointcutCases.MemberInterfaces | src/test/java/hello/aop/proxyvs/ProxyCastingTest.java:28-36 | MemberServiceImpl's only interface is MemberService |
| PointcutCases.MemberProxyKind | src/test/java/hello/aop/proxyvs/ProxyCastingTest.java:15-19 | `proxyTargetClass = false` gives MemberServiceImpl an interface-based proxy, `true` a subclass-based one |
| PointcutCases.ProxyCasts | src/test/java/hello/aop/proxyvs/ProxyCastingTest.java:28-84 | the interface-based proxy casts to MemberService and throws on MemberServiceImpl; the subclass-based one casts to both |
| PointcutCases.ThisTargetDesignators | src/test/java/hello/aop/pointcut/ThisTargetTest.java:79-133 | `this(MemberService)`, `target(MemberService)` and `target(MemberServiceImpl)` hold under both proxies; `this(MemberServiceImpl)` holds exactly under the subclass-based one |
| PointcutCases.ThisTargetLayers | src/test/java/hello/aop/pointcut/ThisTargetTest.java:79-142 | the four around advices of ThisTargetAspect keep declaration order |
| PointcutCases.ThisTargetSelects | src/test/java/hello/aop/pointcut/ThisTargetTest.java:106-116 | all advices but `this(MemberServiceImpl)` select `hello` on both proxies; that one exactly on the subclass-based proxy |
| PointcutCases.ThisTargetChains | src/test/java/hello/aop/pointcut/ThisTargetTest.java:47 | with `proxy-target-class=false` three of the four advices run on `hello`; with `true` all four |
| PointcutCases.AppParentChildWorld | src/test/java/hello/aop/pointcut/AtTargetAtWithinTest.java:59-67 | in the application's class table, only Child carries `@ClassAop` and neither method is inherited from a supertype that declares it |
| PointcutCases.AopTreeSelectsTests | src/test/java/hello/aop/pointcut/AtTargetAtWithinTest.java:87-98 | the narrowing `execution(* hello.aop..*(..))` takes in the test classes' methods |
| PointcutCases.AtTargetReadsTarget | src/test/java/hello/aop/pointcut/AtTargetAtWithinTest.java:78-92 | the `@target` advice's pointcut matches exactly when the runtime class is Child |
| PointcutCases.AtWithinReadsDeclaring | src/test/java/hello/aop/pointcut/AtTargetAtWithinTest.java:94-103 | the `@within` advice's pointcut matches exactly when the declaring class is Child |
| PointcutCases.AtTargetAtWithinCases | src/test/java/hello/aop/pointcut/AtTargetAtWithinTest.java:59-103 | on the Child bean `@target` matches both methods and `@within` only `childMethod`; on the Parent bean neither matches |
| PointcutCases.AtTargetAtWithinLayers | src/test/java/hello/aop/pointcut/AtTargetAtWithinTest.java:87-103 | the aspect's two around advices keep declaration order |
| PointcutCases.AtTargetAtWithinChains | src/test/java/hello/aop/pointcut/AtTargetAtWithinTest.java:32-37 | Child's `childMethod` gets both advices, its inherited `parentMethod` only `@target`'s, and the Parent bean none |
| PointcutCases.AtAnnotationCases | src/test/java/hello/aop/pointcut/AtAnnotationTest.java:41-49 | `@annotation(MethodAop)` selects `hello` and not `internal` |
| PointcutCases.AtAnnotationChains | src/test/java/hello/aop/pointcut/AtAnnotationTest.java:49-55 | under either proxy, `hello` gets the advice and `internal` none |
| PointcutCases.AtAnnotationTrace | src/test/java/hello/aop/pointcut/AtAnnotationTest.java:49-55 | on `hello` the advice logs once, proceeds once and returns what the target did; `internal` runs unadvised |
| PointcutCases.AtArgsRuntime | src/test/java/hello/aop/pointcut/AtAnnotationTest.java:59-66 | `@args(ClassAop)` matches a Child argument and not a Parent argument: it reads the argument's runtime class |

## Left out

- Spring's container: bean creation, `@Import`, `@Autowired`, component scanning, and
  the choice of which beans get a proxy. A call's bean and proxy kind are given as
  data. ProxyDITest is not part of this model; the proxy type views it relies on are
  modelled through ProxyCastingTest.
- The circular-reference setting CallServiceV1 needs on newer Spring Boot is container
  configuration, and is not modelled.
- CallServiceV2 is not part of this model. Its lazy `ObjectProvider` lookup reaches the
  proxy as CallServiceV1's injected self-reference does, and the model treats that case
  through `InternalCall.V1ExternalTrace`.
- CallServiceV3Test autowires CallServiceV1, not CallServiceV3. The model states
  CallServiceV3's behaviour (`InternalCall.V3ExternalTrace`) from its source.
- JDK and CGLIB bytecode generation. A proxy is a two-valued kind on the bean.
- ParameterTest, which binds join-point data into advice parameters through
  reflection. Its only effect is log output.
- Log formats. Log lines are abstract events that record which advice logged what
  about which method.
- The `bean(...)` designator, mentioned in a comment of ExecutionTest, and AspectJ
  syntax that no case here uses.
- ArgsTest spells one pointcut `ags(java.io.Serializable)`. That is not a valid
  designator. The model states the evidently meant `args(java.io.Serializable)` case
  (`PointcutCases.ArgsVsExecution`).
- PointcutCases.ArgsVsExecution: as written, `argsVsExecution` fails at line 93,
  where parsing `ags(java.io.Serializable)` throws, so its checks on lines 96-106 never
  run. The lemma's `args(Serializable)` and `execution` conjuncts state AspectJ's rules
  for those pointcuts, not results that test establishes.
- The order of TraceAspect against RetryAspect on `save` is not fixed by any `@Order`.
  Every exam lemma holds for both registration orders. No lemma says whether the trace
  advice runs once or once per attempt.
- Two around advices in one aspect (AspectV3, AspectV4Pointcut, and the test aspects)
  have no guaranteed relative order in Spring. The model keeps declaration order (a
  stable sort), and the lemmas about those aspects state that choice.
- The bodies of OrderService and OrderRepository are not part of this model. Every
  order lemma holds for any target body, including one that throws, as
  `orderItem("ex")` does.
- `ExamRepository.seq` is shared and unsynchronised. The model runs one call at a time.
- A before advice that itself throws is not modelled: the modelled before advices only
  log.
- The number of executions in ExamTest follows the code: `save` fails only when the
  counter reaches 5, and the retry returns at the first success. So five requests run
  `save` six times.
- Java `Throwable`s other than `Exception` are one class (`JavaError`). No modelled
  target throws one, but the retry loop and the after-throwing and transaction advice
  treat it as Spring's code does.
- InterceptionLaws.DoRetry: `maxRetry` and the loop counter are unbounded integers. In
  Java `retryCount` is an `int`: under `@Retry(Integer.MAX_VALUE)` with every attempt
  throwing an Exception, `retryCount++` wraps to the smallest `int`, the guard
  `retryCount <= maxRetry` never fails and the loop does not end. The model stops after
  `maxRetry` attempts and throws the last Exception there, and `DoRetry` promises that
  end. Below the largest `int` the two agree.
- Interception.RetryLoop: the same difference at `@Retry(Integer.MAX_VALUE)`: the loop
  counts attempts without wrapping, so it ends where the Java loop would not.
- Exam.ExecutionsCount: states the counter only while nothing wraps past the largest
  `int`. `JavaInt.Inc` and `Exam.Save` cover the wrap itself.
