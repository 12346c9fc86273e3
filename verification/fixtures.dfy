/** The classes, interfaces, annotations and methods of the code base, written out as
    descriptor values: the facts reflection would report about them. */
module Fixtures {
  import opened Types

  const MemberPkg: seq<string> := ["hello", "aop", "member"]
  const OrderPkg: seq<string> := ["hello", "aop", "order"]
  const ExamPkg: seq<string> := ["hello", "aop", "exam"]
  const InternalCallPkg: seq<string> := ["hello", "aop", "internalcall"]
  const PointcutTestPkg: seq<string> := ["hello", "aop", "pointcut"]

  // annotations
  const ClassAop: TypeName := TypeName(MemberPkg + ["annotation"], "ClassAop")
  const MethodAop: TypeName := TypeName(MemberPkg + ["annotation"], "MethodAop")
  const RetryAnn: TypeName := TypeName(ExamPkg + ["annotation"], "Retry")
  const TraceAnn: TypeName := TypeName(ExamPkg + ["annotation"], "Trace")

  // types
  const MemberService: TypeName := TypeName(MemberPkg, "MemberService")
  const MemberServiceImpl: TypeName := TypeName(MemberPkg, "MemberServiceImpl")
  const Parent: TypeName := TypeName(PointcutTestPkg, "AtTargetAtWithinTest$Parent")
  const Child: TypeName := TypeName(PointcutTestPkg, "AtTargetAtWithinTest$Child")
  const OrderService: TypeName := TypeName(OrderPkg, "OrderService")
  const OrderRepository: TypeName := TypeName(OrderPkg, "OrderRepository")
  const ExamService: TypeName := TypeName(ExamPkg, "ExamService")
  const ExamRepository: TypeName := TypeName(ExamPkg, "ExamRepository")
  const CallServiceV0: TypeName := TypeName(InternalCallPkg, "CallServiceV0")
  const CallServiceV1: TypeName := TypeName(InternalCallPkg, "CallServiceV1")
  const CallServiceV3: TypeName := TypeName(InternalCallPkg, "CallServiceV3")
  const InternalService: TypeName := TypeName(InternalCallPkg, "InternalService")

  // methods
  const Hello: Method :=
    Method(true, StringType, MemberServiceImpl, "hello", [StringType], [Annotation(MethodAop, StrValue("test value"))])
  const Internal: Method :=
    Method(true, StringType, MemberServiceImpl, "internal", [StringType], [])
  const ParentMethod: Method := Method(true, VoidType, Parent, "parentMethod", [], [])
  const ChildMethod: Method := Method(true, VoidType, Child, "childMethod", [], [])
  const OrderItem: Method := Method(true, VoidType, OrderService, "orderItem", [StringType], [])
  const OrderSave: Method := Method(true, VoidType, OrderRepository, "save", [StringType], [])
  const ExamRequest: Method :=
    Method(true, VoidType, ExamService, "request", [StringType], [Annotation(TraceAnn, NoValue)])

  /** `ExamRepository.save` carrying `@Trace` and `@Retry` with the given attribute. */
  function ExamSaveWith(retry: AttrValue): Method {
    Method(true, StringType, ExamRepository, "save", [StringType],
           [Annotation(TraceAnn, NoValue), Annotation(RetryAnn, retry)])
  }

  /** As declared: `@Retry(value = 4)`. */
  const ExamSave: Method := ExamSaveWith(IntValue(4))

  function External(cls: TypeName): Method { Method(true, VoidType, cls, "external", [], []) }
  function InternalOf(cls: TypeName): Method { Method(true, VoidType, cls, "internal", [], []) }

  const Plain: seq<Annotation> := []

  function Cls(supers: set<TypeName>, annots: seq<Annotation>, declares: set<MethodKey>): ClassInfo {
    ClassInfo(false, supers, annots, declares)
  }

  function Iface(declares: set<MethodKey>): ClassInfo {
    ClassInfo(true, {ObjectType}, Plain, declares)
  }

  const AppWorld: World := World(map[
    ObjectType := Cls({}, Plain, {}),
    StringType := Cls({ObjectType, SerializableType, CharSequenceType}, Plain, {}),
    SerializableType := Iface({}),
    CharSequenceType := Iface({}),
    MemberService := Iface({Key(Hello)}),
    MemberServiceImpl := Cls({MemberService, ObjectType}, [Annotation(ClassAop, NoValue)], {Key(Hello), Key(Internal)}),
    Parent := Cls({ObjectType}, Plain, {Key(ParentMethod)}),
    Child := Cls({Parent, ObjectType}, [Annotation(ClassAop, NoValue)], {Key(ChildMethod)}),
    OrderService := Cls({ObjectType}, Plain, {Key(OrderItem)}),
    OrderRepository := Cls({ObjectType}, Plain, {Key(OrderSave)}),
    ExamService := Cls({ObjectType}, Plain, {Key(ExamRequest)}),
    ExamRepository := Cls({ObjectType}, Plain, {Key(ExamSave)}),
    CallServiceV0 := Cls({ObjectType}, Plain, {Key(External(CallServiceV0)), Key(InternalOf(CallServiceV0))}),
    CallServiceV1 := Cls({ObjectType}, Plain, {Key(External(CallServiceV1)), Key(InternalOf(CallServiceV1))}),
    CallServiceV3 := Cls({ObjectType}, Plain, {Key(External(CallServiceV3))}),
    InternalService := Cls({ObjectType}, Plain, {Key(InternalOf(InternalService))})
  ])
}
