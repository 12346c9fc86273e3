/** The aspects of the code base as values: their pointcuts, their `@Order`, and their
    advice methods in declaration order. */
module Aspects {
  import opened Outcomes
  import opened Types
  import opened Pointcut
  import opened Chain
  import opened Fixtures

  // ---------------------------------------------------------------- pointcuts

  /** `execution(* <pkg>..*(..))`: every method of every type in `pkg` or below. */
  function InPackageTree(pkg: seq<string>): Expr {
    Execution(MethodPattern(false, AnyReturn, Some(Lits(pkg) + [AnyPackages, Name("*")]), "*", [AnyParams]))
  }

  /** `allOrder()`: `execution(* hello.aop.order..*(..))`. */
  const AllOrder: Expr := InPackageTree(OrderPkg)

  /** `allService()`: `execution(* *..*Service.*(..))`. */
  const AllService: Expr :=
    Execution(MethodPattern(false, AnyReturn, Some([Name("*"), AnyPackages, Name("*Service")]), "*", [AnyParams]))

  /** `orderAndService()`: `allOrder() && allService()`. */
  const OrderAndService: Expr := And(AllOrder, AllService)

  /** CallLogAspect's `execution(* hello.aop.internalcall..*.*(..))`. */
  const InternalCallTree: Expr := InPackageTree(InternalCallPkg)

  /** `execution(* hello.aop..*(..))`, the narrowing part of the `@target` / `@within` advice. */
  const AopTree: Expr := InPackageTree(["hello", "aop"])

  // ---------------------------------------------------------------- order example, V1 to V6

  const DoLog: AdviceDecl := AdviceDecl(Around(LogAndProceed("[log]")), AllOrder)
  const DoTransaction: AdviceDecl := AdviceDecl(Around(Transaction), OrderAndService)

  const AspectV1: Aspect := Aspect("aspectV1", LowestPrecedence, [DoLog])
  const AspectV2: Aspect := Aspect("aspectV2", LowestPrecedence, [DoLog])
  const AspectV3: Aspect := Aspect("aspectV3", LowestPrecedence, [DoLog, DoTransaction])
  const AspectV4: Aspect := Aspect("aspectV4Pointcut", LowestPrecedence, [DoLog, DoTransaction])

  /** AspectV5Order's two nested aspects. */
  const LogAspect: Aspect := Aspect("logAspect", 2, [DoLog])
  const TxAspect: Aspect := Aspect("txAspect", 1, [DoTransaction])

  /** AspectV6Advice: all five kinds on `orderAndService()`, in declaration order. */
  const V6Transaction: AdviceDecl := DoTransaction
  const V6Before: AdviceDecl := AdviceDecl(Before("[before]", false), OrderAndService)
  const V6Return: AdviceDecl := AdviceDecl(AfterReturning("[return]"), OrderAndService)
  const V6Throwing: AdviceDecl := AdviceDecl(AfterThrowing("[ex]"), OrderAndService)
  const V6After: AdviceDecl := AdviceDecl(After("[after]"), OrderAndService)
  const AspectV6: Aspect :=
    Aspect("aspectV6Advice", LowestPrecedence, [V6Transaction, V6Before, V6Return, V6Throwing, V6After])

  // ---------------------------------------------------------------- exam example

  const TraceAspect: Aspect :=
    Aspect("traceAspect", LowestPrecedence, [AdviceDecl(Before("[trace]", true), AtAnnotation(TraceAnn))])

  const RetryAspect: Aspect :=
    Aspect("retryAspect", LowestPrecedence, [AdviceDecl(Around(RetryOnFailure(RetryAnn)), AtAnnotation(RetryAnn))])

  // ---------------------------------------------------------------- internal-call example

  const CallLogAspect: Aspect :=
    Aspect("callLogAspect", LowestPrecedence, [AdviceDecl(Before("aop", false), InternalCallTree)])

  // ---------------------------------------------------------------- pointcut tests

  const ThisTargetAspect: Aspect := Aspect("thisTargetAspect", LowestPrecedence, [
    AdviceDecl(Around(LogAndProceed("[this-interface]")), This(MemberService)),
    AdviceDecl(Around(LogAndProceed("[target-interface]")), Target(MemberService)),
    AdviceDecl(Around(LogAndProceed("[this-impl]")), This(MemberServiceImpl)),
    AdviceDecl(Around(LogAndProceed("[target-impl]")), Target(MemberServiceImpl))
  ])

  const AtTargetAtWithinAspect: Aspect := Aspect("atTargetAtWithinAspect", LowestPrecedence, [
    AdviceDecl(Around(LogAndProceed("[@target]")), And(AopTree, AtTarget(ClassAop))),
    AdviceDecl(Around(LogAndProceed("[@within]")), And(AopTree, AtWithin(ClassAop)))
  ])

  const AtAnnotationAspect: Aspect :=
    Aspect("atAnnotationAspect", LowestPrecedence, [AdviceDecl(Around(LogAndProceed("[@annotation]")), AtAnnotation(MethodAop))])
}
