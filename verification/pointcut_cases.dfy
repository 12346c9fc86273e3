/** The pointcut cases the test classes pin down, stated for `MemberServiceImpl.hello`
    and `internal`, for the `Parent` / `Child` pair, and for the two proxy styles. Each
    lemma holds in every class table that agrees with the application's on the few
    facts it names; `AppMemberWorld` and `AppParentChildWorld` show the application's
    own table does. */
module PointcutCases {
  import opened JavaInt
  import opened Outcomes
  import opened Types
  import opened Pointcut
  import opened PointcutLaws
  import opened Proxy
  import opened Chain
  import opened Interception
  import opened InterceptionLaws
  import opened Fixtures
  import opened Aspects
  import Glob

  // ---------------------------------------------------------------- the member classes

  /** What the member cases read from the class table: MemberServiceImpl implements the
      interface MemberService, which declares `hello(String)` but not `internal(String)`;
      Object declares neither; String is Serializable and a CharSequence. */
  predicate MemberWorld(w: World) {
    && Supertypes(w, MemberServiceImpl) == {MemberService, ObjectType}
    && MemberService in w.classes && w.classes[MemberService].isInterface
    && Key(Hello) in w.classes[MemberService].declares
    && Key(Internal) !in w.classes[MemberService].declares
    && ObjectType in w.classes && !w.classes[ObjectType].isInterface
    && Key(Hello) !in w.classes[ObjectType].declares
    && Key(Internal) !in w.classes[ObjectType].declares
    && Supertypes(w, StringType) == {ObjectType, SerializableType, CharSequenceType}
  }

  lemma AppMemberWorld()
    ensures MemberWorld(AppWorld)
  {
    assert AppWorld.classes[MemberService] == Iface({Key(Hello)});
    assert AppWorld.classes[ObjectType] == Cls({}, Plain, {});
    assert Key(Internal) != Key(Hello);
  }

  /** `hello` is declared on MemberServiceImpl and on the interface MemberService, so a
      declaring-type pattern selects it when it names either type. */
  lemma HelloDeclaring(w: World, p: TypePattern)
    requires MemberWorld(w)
    ensures DeclaringMatches(w, Some(p), Hello) <==> TypeMatch(p, MemberServiceImpl) || TypeMatch(p, MemberService)
  {
    var cands := {Hello.declaringType} + Supertypes(w, Hello.declaringType);
    assert DeclaredOn(w, Hello, MemberServiceImpl) && MemberServiceImpl in cands;
    assert DeclaredOn(w, Hello, MemberService) && MemberService in cands;
    assert !DeclaredOn(w, Hello, ObjectType);
  }

  /** `internal` is declared on MemberServiceImpl alone. */
  lemma InternalOwn(w: World)
    requires MemberWorld(w)
    ensures OwnMethod(w, Internal)
  {
    assert !DeclaredOn(w, Internal, MemberService);
    assert !DeclaredOn(w, Internal, ObjectType);
  }

  // ---------------------------------------------------------------- execution: one part at a time

  /** `execution(* name(..))`: only the name pattern decides. */
  lemma NameOnly(w: World, name: string, m: Method)
    ensures ExecutionMatches(w, MethodPattern(false, AnyReturn, None, name, [AnyParams]), m)
        <==> Glob.Match(name, m.name)
  {
    AnyParamsMatchesAll(w, m.params, true);
  }

  /** `execution(* <type>.*(..))`: only the declaring-type pattern decides. */
  lemma DeclaringOnly(w: World, p: TypePattern, m: Method)
    ensures ExecutionMatches(w, MethodPattern(false, AnyReturn, Some(p), "*", [AnyParams]), m)
        <==> DeclaringMatches(w, Some(p), m)
  {
    Glob.StarMatchesAll(m.name);
    AnyParamsMatchesAll(w, m.params, true);
  }

  /** `execution(* *(<params>))`: only the parameter pattern decides, on declared types. */
  lemma ParamsOnly(w: World, ps: seq<ParamPattern>, m: Method)
    ensures ExecutionMatches(w, MethodPattern(false, AnyReturn, None, "*", ps), m)
        <==> ParamsMatch(w, ps, m.params, true)
  {
    Glob.StarMatchesAll(m.name);
  }

  // ---------------------------------------------------------------- ExecutionTest

  const MemberImplPattern: TypePattern := Lits(MemberPkg + ["MemberServiceImpl"])
  const MemberIfacePattern: TypePattern := Lits(MemberPkg + ["MemberService"])

  lemma MemberNamesLiteral()
    ensures AllLiteral(MemberPkg + ["MemberServiceImpl"]) && AllLiteral(MemberPkg + ["MemberService"])
    ensures AllLiteral(MemberPkg) && AllLiteral(["hello", "aop"])
  {
    assert MemberPkg + ["MemberServiceImpl"] == ["hello", "aop", "member", "MemberServiceImpl"];
    assert MemberPkg + ["MemberService"] == ["hello", "aop", "member", "MemberService"];
  }

  /** The fully spelled pattern `public String hello.aop.member.MemberServiceImpl.hello(String)`
      selects `hello`. */
  lemma ExactMatch(w: World)
    requires MemberWorld(w)
    ensures ExecutionMatches(w, MethodPattern(true, ReturnType(StringType), Some(MemberImplPattern), "hello", [Exactly(StringType)]), Hello)
  {
    MemberNamesLiteral();
    HelloDeclaring(w, MemberImplPattern);
    ExactTypeMatch(MemberPkg, "MemberServiceImpl", MemberServiceImpl);
    Glob.LiteralMatch("hello", Hello.name);
    assert [Exactly(StringType)][1..] == [];
  }

  /** `execution(* *(..))` selects `hello`. */
  lemma AllMatch(w: World)
    ensures ExecutionMatches(w, MethodPattern(false, AnyReturn, None, "*", [AnyParams]), Hello)
  {
    ExecutionAnyMatchesAll(w, Hello);
  }

  /** Name patterns: `hello`, `hel*` and `*el*` select `hello`; `nono` does not. */
  lemma NamePatterns()
    ensures Glob.Match("hello", Hello.name)
    ensures Glob.Match("hel*", Hello.name)
    ensures Glob.Match("*el*", Hello.name)
    ensures !Glob.Match("nono", Hello.name)
  {
    Glob.LiteralMatch("hello", Hello.name);
    Glob.PrefixMatch("hel", Hello.name);
    assert "hel" + "*" == "hel*";
    assert "hel" <= Hello.name;
    Glob.InfixMatch("el", Hello.name);
    assert "*" + "el" + "*" == "*el*";
    assert "el" <= Hello.name[1..];
    Glob.LiteralMatch("nono", Hello.name);
  }

  lemma NameMatches(w: World)
    ensures ExecutionMatches(w, MethodPattern(false, AnyReturn, None, "hello", [AnyParams]), Hello)
    ensures ExecutionMatches(w, MethodPattern(false, AnyReturn, None, "hel*", [AnyParams]), Hello)
    ensures ExecutionMatches(w, MethodPattern(false, AnyReturn, None, "*el*", [AnyParams]), Hello)
    ensures !ExecutionMatches(w, MethodPattern(false, AnyReturn, None, "nono", [AnyParams]), Hello)
  {
    NamePatterns();
    NameOnly(w, "hello", Hello);
    NameOnly(w, "hel*", Hello);
    NameOnly(w, "*el*", Hello);
    NameOnly(w, "nono", Hello);
  }

  /** `hello.aop.member.MemberServiceImpl.hello(..)` selects `hello`. */
  lemma PackageExactMatch1(w: World)
    requires MemberWorld(w)
    ensures ExecutionMatches(w, MethodPattern(false, AnyReturn, Some(MemberImplPattern), "hello", [AnyParams]), Hello)
  {
    MemberNamesLiteral();
    HelloDeclaring(w, MemberImplPattern);
    ExactTypeMatch(MemberPkg, "MemberServiceImpl", MemberServiceImpl);
    NamePatterns();
    AnyParamsMatchesAll(w, Hello.params, true);
  }

  /** A single `.` fixes the package: `hello.aop.member.*.*(..)` selects `hello`,
      `hello.aop.*.*(..)` does not. */
  lemma PackageExact(w: World)
    requires MemberWorld(w)
    ensures ExecutionMatches(w, MethodPattern(false, AnyReturn, Some(Lits(MemberPkg) + [Name("*")]), "*", [AnyParams]), Hello)
    ensures !ExecutionMatches(w, MethodPattern(false, AnyReturn, Some(Lits(["hello", "aop"]) + [Name("*")]), "*", [AnyParams]), Hello)
  {
    MemberNamesLiteral();
    var here := Lits(MemberPkg) + [Name("*")];
    var above := Lits(["hello", "aop"]) + [Name("*")];
    HelloDeclaring(w, here);
    HelloDeclaring(w, above);
    DeclaringOnly(w, here, Hello);
    DeclaringOnly(w, above, Hello);
    PackageMatch(MemberPkg, MemberServiceImpl);
    PackageMatch(["hello", "aop"], MemberServiceImpl);
    PackageMatch(["hello", "aop"], MemberService);
  }

  /** `..` takes in sub-packages: `hello.aop.member..*.*(..)` and `hello.aop..*.*(..)`
      both select `hello`. */
  lemma PackageSubPackages(w: World)
    requires MemberWorld(w)
    ensures ExecutionMatches(w, MethodPattern(false, AnyReturn, Some(Lits(MemberPkg) + [AnyPackages, Name("*")]), "*", [AnyParams]), Hello)
    ensures ExecutionMatches(w, MethodPattern(false, AnyReturn, Some(Lits(["hello", "aop"]) + [AnyPackages, Name("*")]), "*", [AnyParams]), Hello)
  {
    MemberNamesLiteral();
    var here := Lits(MemberPkg) + [AnyPackages, Name("*")];
    var above := Lits(["hello", "aop"]) + [AnyPackages, Name("*")];
    HelloDeclaring(w, here);
    HelloDeclaring(w, above);
    DeclaringOnly(w, here, Hello);
    DeclaringOnly(w, above, Hello);
    PackageTreeMatch(MemberPkg, MemberServiceImpl);
    PackageTreeMatch(["hello", "aop"], MemberServiceImpl);
  }

  /** `hello.aop.member.MemberServiceImpl.*(..)` selects both `hello` and `internal`. */
  lemma TypeExactMatch(w: World)
    requires MemberWorld(w)
    ensures ExecutionMatches(w, MethodPattern(false, AnyReturn, Some(MemberImplPattern), "*", [AnyParams]), Hello)
    ensures ExecutionMatches(w, MethodPattern(false, AnyReturn, Some(MemberImplPattern), "*", [AnyParams]), Internal)
  {
    MemberNamesLiteral();
    HelloDeclaring(w, MemberImplPattern);
    InternalOwn(w);
    DeclaredOnlyHere(w, MemberImplPattern, Internal);
    DeclaringOnly(w, MemberImplPattern, Hello);
    DeclaringOnly(w, MemberImplPattern, Internal);
    ExactTypeMatch(MemberPkg, "MemberServiceImpl", MemberServiceImpl);
  }

  /** Naming the interface, `hello.aop.member.MemberService.*(..)`, selects `hello`,
      which the interface declares, and not `internal`, which only the class declares. */
  lemma TypeMatchSuperType(w: World)
    requires MemberWorld(w)
    ensures ExecutionMatches(w, MethodPattern(false, AnyReturn, Some(MemberIfacePattern), "*", [AnyParams]), Hello)
    ensures !ExecutionMatches(w, MethodPattern(false, AnyReturn, Some(MemberIfacePattern), "*", [AnyParams]), Internal)
  {
    MemberNamesLiteral();
    HelloDeclaring(w, MemberIfacePattern);
    InternalOwn(w);
    DeclaredOnlyHere(w, MemberIfacePattern, Internal);
    DeclaringOnly(w, MemberIfacePattern, Hello);
    DeclaringOnly(w, MemberIfacePattern, Internal);
    ExactTypeMatch(MemberPkg, "MemberService", MemberService);
    ExactTypeMatch(MemberPkg, "MemberService", MemberServiceImpl);
  }

  /** Parameter patterns against `hello(String)`: `(String)`, `(*)`, `(..)` and
      `(String, ..)` select it; `()` and `(*, *)` do not. */
  lemma ParamPatterns(w: World)
    ensures ParamsMatch(w, [Exactly(StringType)], Hello.params, true)
    ensures !ParamsMatch(w, [], Hello.params, true)
    ensures ParamsMatch(w, [AnyParam], Hello.params, true)
    ensures ParamsMatch(w, [AnyParams], Hello.params, true)
    ensures ParamsMatch(w, [Exactly(StringType), AnyParams], Hello.params, true)
    ensures !ParamsMatch(w, [AnyParam, AnyParam], Hello.params, true)
  {
    assert [Exactly(StringType)][1..] == [] && [AnyParam][1..] == [];
    AnyParamsMatchesAll(w, Hello.params, true);
    LeadingThenAny(w, StringType, Hello.params, true);
    PositionalParams(w, [AnyParam, AnyParam], Hello.params, true);
  }

  lemma ParamMatches(w: World)
    ensures ExecutionMatches(w, MethodPattern(false, AnyReturn, None, "*", [Exactly(StringType)]), Hello)
    ensures !ExecutionMatches(w, MethodPattern(false, AnyReturn, None, "*", []), Hello)
    ensures ExecutionMatches(w, MethodPattern(false, AnyReturn, None, "*", [AnyParam]), Hello)
    ensures ExecutionMatches(w, MethodPattern(false, AnyReturn, None, "*", [AnyParams]), Hello)
    ensures ExecutionMatches(w, MethodPattern(false, AnyReturn, None, "*", [Exactly(StringType), AnyParams]), Hello)
    ensures !ExecutionMatches(w, MethodPattern(false, AnyReturn, None, "*", [AnyParam, AnyParam]), Hello)
  {
    ParamPatterns(w);
    ParamsOnly(w, [Exactly(StringType)], Hello);
    ParamsOnly(w, [], Hello);
    ParamsOnly(w, [AnyParam], Hello);
    ParamsOnly(w, [AnyParams], Hello);
    ParamsOnly(w, [Exactly(StringType), AnyParams], Hello);
    ParamsOnly(w, [AnyParam, AnyParam], Hello);
  }

  // ---------------------------------------------------------------- ArgsTest

  /** `hello("helloA")`: one argument whose runtime class is String. */
  function HelloCall(kind: ProxyKind): Call {
    Call(Bean(MemberServiceImpl, kind), Hello, [Str("helloA")])
  }

  lemma HelloArgTypes(w: World, kind: ProxyKind)
    ensures Context(w, HelloCall(kind)).argTypes == [StringType]
  {
  }

  /** `args(T)` accepts the String argument exactly when String is assignable to T;
      `execution(* *(T))` accepts `hello(String)` only for T = String itself. */
  lemma ArgsAgainstExecution(w: World, t: TypeName, ctx: Ctx)
    requires ctx.argTypes == [StringType]
    ensures Eval(w, Args([Exactly(t)]), Hello, ctx) <==> Assignable(w, StringType, t)
    ensures ExecutionMatches(w, MethodPattern(false, AnyReturn, None, "*", [Exactly(t)]), Hello) <==> t == StringType
  {
    assert [Exactly(t)][1..] == [] && ctx.argTypes[1..] == [];
    assert ParamsMatch(w, [], [], false);
    assert Eval(w, Args([Exactly(t)]), Hello, ctx) == ParamsMatch(w, [Exactly(t)], [StringType], false);
    ParamsOnly(w, [Exactly(t)], Hello);
  }

  /** ArgsTest's `args` cases: `(String)`, `(Object)`, `(..)`, `(*)` and `(String, ..)`
      accept the call, `()` does not. */
  lemma ArgsPatterns(w: World, m: Method, ctx: Ctx)
    requires ctx.argTypes == [StringType]
    ensures Eval(w, Args([Exactly(StringType)]), m, ctx)
    ensures Eval(w, Args([Exactly(ObjectType)]), m, ctx)
    ensures !Eval(w, Args([]), m, ctx)
    ensures Eval(w, Args([AnyParams]), m, ctx)
    ensures Eval(w, Args([AnyParam]), m, ctx)
    ensures Eval(w, Args([Exactly(StringType), AnyParams]), m, ctx)
  {
    assert [Exactly(StringType)][1..] == [] && [Exactly(ObjectType)][1..] == [] && [AnyParam][1..] == [];
    AnyParamsMatchesAll(w, ctx.argTypes, false);
    LeadingThenAny(w, StringType, ctx.argTypes, false);
  }

  /** ArgsTest's contrast: `execution(* *(String))` selects `hello`, while
      `execution(* *(java.io.Serializable))` and `execution(* *(Object))` do not, though
      String is both a Serializable and an Object. The test as written stops at its
      malformed `ags(java.io.Serializable)`; these are AspectJ's rules for the cases it
      meant to check. */
  lemma ArgsVsExecution(w: World, ctx: Ctx)
    requires MemberWorld(w) && ctx.argTypes == [StringType]
    ensures ExecutionMatches(w, MethodPattern(false, AnyReturn, None, "*", [Exactly(StringType)]), Hello)
    ensures !ExecutionMatches(w, MethodPattern(false, AnyReturn, None, "*", [Exactly(SerializableType)]), Hello)
    ensures !ExecutionMatches(w, MethodPattern(false, AnyReturn, None, "*", [Exactly(ObjectType)]), Hello)
    ensures Eval(w, Args([Exactly(SerializableType)]), Hello, ctx) && Eval(w, Args([Exactly(ObjectType)]), Hello, ctx)
  {
    ArgsAgainstExecution(w, StringType, ctx);
    ArgsAgainstExecution(w, SerializableType, ctx);
    ArgsAgainstExecution(w, ObjectType, ctx);
  }

  // ---------------------------------------------------------------- ThisTargetTest and ProxyCastingTest

  lemma MemberInterfaces(w: World)
    requires MemberWorld(w)
    ensures Interfaces(w, MemberServiceImpl) == {MemberService}
  {
    assert MemberService in Interfaces(w, MemberServiceImpl);
    assert ObjectType !in Interfaces(w, MemberServiceImpl);
  }

  /** MemberServiceImpl implements an interface, so `proxyTargetClass = false` gives the
      interface-based proxy and `true` the subclass-based one. */
  lemma MemberProxyKind(w: World)
    requires MemberWorld(w)
    ensures ChooseKind(w, false, MemberServiceImpl) == InterfaceBased
    ensures ChooseKind(w, true, MemberServiceImpl) == SubclassBased
  {
    MemberInterfaces(w);
  }

  /** ProxyCastingTest: the interface-based proxy casts to MemberService but throws
      ClassCastException on a cast to MemberServiceImpl; the subclass-based proxy casts
      to both. */
  lemma ProxyCasts(w: World)
    requires MemberWorld(w)
    ensures var jdk := ChooseKind(w, false, MemberServiceImpl);
            Cast(w, jdk, MemberServiceImpl, MemberService) == CastOk
            && Cast(w, jdk, MemberServiceImpl, MemberServiceImpl) == ClassCastException
    ensures var cglib := ChooseKind(w, true, MemberServiceImpl);
            Cast(w, cglib, MemberServiceImpl, MemberService) == CastOk
            && Cast(w, cglib, MemberServiceImpl, MemberServiceImpl) == CastOk
  {
    MemberProxyKind(w);
    MemberInterfaces(w);
  }

  /** ThisTargetTest: `this` looks at the proxy and `target` at the real object, both
      accepting supertypes. Only `this(MemberServiceImpl)` depends on the proxy style:
      it fails under the interface-based proxy. */
  lemma ThisTargetDesignators(w: World, kind: ProxyKind, m: Method, args: seq<Value>)
    requires MemberWorld(w)
    ensures var ctx := Context(w, Call(Bean(MemberServiceImpl, kind), m, args));
            && Eval(w, This(MemberService), m, ctx)
            && Eval(w, Target(MemberService), m, ctx)
            && Eval(w, Target(MemberServiceImpl), m, ctx)
            && (Eval(w, This(MemberServiceImpl), m, ctx) <==> kind == SubclassBased)
  {
    MemberInterfaces(w);
  }

  /** ThisTargetAspect's four around advices, as the chain builder lays them out. */
  function ThisTargetEntry(tag: string, e: Expr): Advice {
    Advice("thisTargetAspect", LowestPrecedence, Around(LogAndProceed(tag)), e)
  }
  const ThisIface := ThisTargetEntry("[this-interface]", This(MemberService))
  const TargetIface := ThisTargetEntry("[target-interface]", Target(MemberService))
  const ThisImpl := ThisTargetEntry("[this-impl]", This(MemberServiceImpl))
  const TargetImpl := ThisTargetEntry("[target-impl]", Target(MemberServiceImpl))

  /** Four advices of one kind keep their declaration order. */
  lemma ThisTargetLayers()
    ensures Layers(Outermost([ThisTargetAspect])) == [ThisIface, TargetIface, ThisImpl, TargetImpl]
  {
    var ds := ThisTargetAspect.advices;
    assert Outermost([ThisTargetAspect]) == [ThisTargetAspect];
    SortByTies(ds, DeclRank, 0);
    assert Layers([ThisTargetAspect]) == Layer(ThisTargetAspect, ds) + Layers([]);
    LayerOfFour(ThisTargetAspect, ds);
  }

  lemma LayerOfFour(a: Aspect, ds: seq<AdviceDecl>)
    requires |ds| == 4
    ensures var r := Layer(a, ds);
            r == [r[0], r[1], r[2], r[3]]
  {
  }

  lemma ThisTargetSelects(w: World, kind: ProxyKind)
    requires MemberWorld(w)
    ensures Applies(w, ThisIface, HelloCall(kind)) && Applies(w, TargetIface, HelloCall(kind))
    ensures Applies(w, TargetImpl, HelloCall(kind))
    ensures Applies(w, ThisImpl, HelloCall(kind)) <==> kind == SubclassBased
  {
    ThisTargetDesignators(w, kind, Hello, [Str("helloA")]);
  }

  /** With `proxy-target-class=false` three of the four advices run on `hello`, all but
      `this(MemberServiceImpl)`; with the subclass-based proxy all four run. */
  lemma ThisTargetChains(w: World)
    requires MemberWorld(w)
    ensures ChainFor(w, [ThisTargetAspect], HelloCall(InterfaceBased)) == [ThisIface, TargetIface, TargetImpl]
    ensures ChainFor(w, [ThisTargetAspect], HelloCall(SubclassBased)) == [ThisIface, TargetIface, ThisImpl, TargetImpl]
  {
    ThisTargetLayers();
    ThisTargetSelects(w, InterfaceBased);
    ThisTargetSelects(w, SubclassBased);
    AllButThird(w, ThisIface, TargetIface, ThisImpl, TargetImpl, HelloCall(InterfaceBased));
    AllButThird(w, ThisIface, TargetIface, ThisImpl, TargetImpl, HelloCall(SubclassBased));
  }

  // ---------------------------------------------------------------- AtTargetAtWithinTest

  /** What the `Parent` / `Child` cases read from the class table: neither method comes
      from a supertype, Child carries `@ClassAop` and Parent carries nothing. */
  predicate ParentChildWorld(w: World) {
    && OwnMethod(w, ParentMethod) && OwnMethod(w, ChildMethod)
    && TypeAnnotations(w, Child) == [Annotation(ClassAop, NoValue)]
    && TypeAnnotations(w, Parent) == []
  }

  lemma AppParentChildWorld()
    ensures ParentChildWorld(AppWorld)
  {
    assert Supertypes(AppWorld, Parent) == {ObjectType};
    assert Supertypes(AppWorld, Child) == {Parent, ObjectType};
    assert Key(ChildMethod) !in AppWorld.classes[Parent].declares;
  }

  /** Neither class implements an interface: both beans get subclass proxies. */
  const ChildBean: Bean := Bean(Child, SubclassBased)
  const ParentBean: Bean := Bean(Parent, SubclassBased)

  /** The narrowing `execution(* hello.aop..*(..))` takes in both test classes. */
  lemma AopTreeSelectsTests(w: World, m: Method, ctx: Ctx)
    requires OwnMethod(w, m) && m.declaringType.pkg == PointcutTestPkg
    ensures Eval(w, AopTree, m, ctx)
  {
    assert AllLiteral(["hello", "aop"]);
    PackageTreeSelects(w, ["hello", "aop"], m, ctx);
  }

  const AtTargetExpr: Expr := And(AopTree, AtTarget(ClassAop))
  const AtWithinExpr: Expr := And(AopTree, AtWithin(ClassAop))

  /** `@target(ClassAop)` (narrowed to the test package tree) reads the runtime class:
      of the two test classes it accepts exactly a Child target. */
  lemma AtTargetReadsTarget(w: World, m: Method, ctx: Ctx)
    requires ParentChildWorld(w) && OwnMethod(w, m) && m.declaringType.pkg == PointcutTestPkg
    requires ctx.targetClass == Parent || ctx.targetClass == Child
    ensures Eval(w, AtTargetExpr, m, ctx) <==> ctx.targetClass == Child
  {
    AopTreeSelectsTests(w, m, ctx);
    assert TypeAnnotations(w, Child)[0].kind == ClassAop;
  }

  /** `@within(ClassAop)` (narrowed likewise) reads the declaring class: of the two test
      classes it accepts exactly a method Child declares, whatever the target. */
  lemma AtWithinReadsDeclaring(w: World, m: Method, ctx: Ctx)
    requires ParentChildWorld(w) && OwnMethod(w, m)
    requires m.declaringType == Parent || m.declaringType == Child
    ensures Eval(w, AtWithinExpr, m, ctx) <==> m.declaringType == Child
  {
    AopTreeSelectsTests(w, m, ctx);
    assert TypeAnnotations(w, Child)[0].kind == ClassAop;
  }

  /** On the Child bean `@target` matches both methods, `@within` only `childMethod`;
      on the Parent bean neither matches. */
  lemma AtTargetAtWithinCases(w: World)
    requires ParentChildWorld(w)
    ensures Eval(w, AtTargetExpr, ChildMethod, Context(w, Call(ChildBean, ChildMethod, [])))
    ensures Eval(w, AtWithinExpr, ChildMethod, Context(w, Call(ChildBean, ChildMethod, [])))
    ensures Eval(w, AtTargetExpr, ParentMethod, Context(w, Call(ChildBean, ParentMethod, [])))
    ensures !Eval(w, AtWithinExpr, ParentMethod, Context(w, Call(ChildBean, ParentMethod, [])))
    ensures !Eval(w, AtTargetExpr, ParentMethod, Context(w, Call(ParentBean, ParentMethod, [])))
    ensures !Eval(w, AtWithinExpr, ParentMethod, Context(w, Call(ParentBean, ParentMethod, [])))
  {
    AtTargetReadsTarget(w, ChildMethod, Context(w, Call(ChildBean, ChildMethod, [])));
    AtWithinReadsDeclaring(w, ChildMethod, Context(w, Call(ChildBean, ChildMethod, [])));
    AtTargetReadsTarget(w, ParentMethod, Context(w, Call(ChildBean, ParentMethod, [])));
    AtWithinReadsDeclaring(w, ParentMethod, Context(w, Call(ChildBean, ParentMethod, [])));
    AtTargetReadsTarget(w, ParentMethod, Context(w, Call(ParentBean, ParentMethod, [])));
    AtWithinReadsDeclaring(w, ParentMethod, Context(w, Call(ParentBean, ParentMethod, [])));
  }

  /** AtTargetAtWithinAspect's two around advices, in declaration order. */
  const AtTargetAdvice: Advice := Advice("atTargetAtWithinAspect", LowestPrecedence, Around(LogAndProceed("[@target]")), AtTargetExpr)
  const AtWithinAdvice: Advice := Advice("atTargetAtWithinAspect", LowestPrecedence, Around(LogAndProceed("[@within]")), AtWithinExpr)

  lemma AtTargetAtWithinLayers()
    ensures Layers(Outermost([AtTargetAtWithinAspect])) == [AtTargetAdvice, AtWithinAdvice]
  {
    var ds := AtTargetAtWithinAspect.advices;
    assert Outermost([AtTargetAtWithinAspect]) == [AtTargetAtWithinAspect];
    SortByTies(ds, DeclRank, 0);
    assert Layers([AtTargetAtWithinAspect]) == Layer(AtTargetAtWithinAspect, ds) + Layers([]);
  }

  /** On the Child bean `childMethod` gets both advices and the inherited `parentMethod`
      only the `@target` one; the Parent bean gets none. */
  lemma AtTargetAtWithinChains(w: World)
    requires ParentChildWorld(w)
    ensures ChainFor(w, [AtTargetAtWithinAspect], Call(ChildBean, ChildMethod, [])) == [AtTargetAdvice, AtWithinAdvice]
    ensures ChainFor(w, [AtTargetAtWithinAspect], Call(ChildBean, ParentMethod, [])) == [AtTargetAdvice]
    ensures ChainFor(w, [AtTargetAtWithinAspect], Call(ParentBean, ParentMethod, [])) == []
  {
    AtTargetAtWithinLayers();
    AtTargetAtWithinCases(w);
    TwoChain(w, [AtTargetAtWithinAspect], AtTargetAdvice, AtWithinAdvice, Call(ChildBean, ChildMethod, []));
    TwoChain(w, [AtTargetAtWithinAspect], AtTargetAdvice, AtWithinAdvice, Call(ChildBean, ParentMethod, []));
    TwoChain(w, [AtTargetAtWithinAspect], AtTargetAdvice, AtWithinAdvice, Call(ParentBean, ParentMethod, []));
  }

  lemma TwoChain(w: World, registry: seq<Aspect>, x: Advice, y: Advice, c: Call)
    requires Layers(Outermost(registry)) == [x, y]
    ensures ChainFor(w, registry, c) == (if Applies(w, x, c) then [x] else []) + (if Applies(w, y, c) then [y] else [])
  {
    ApplicableTwo(w, x, y, c);
  }

  // ---------------------------------------------------------------- AtAnnotationTest

  /** `@annotation(MethodAop)` selects `hello`, which carries `@MethodAop("test value")`,
      and not `internal`, which carries no annotation. */
  lemma AtAnnotationCases(w: World, ctx: Ctx)
    ensures Eval(w, AtAnnotation(MethodAop), Hello, ctx)
    ensures !Eval(w, AtAnnotation(MethodAop), Internal, ctx)
  {
    assert Hello.annotations[0].kind == MethodAop;
  }

  const AtAnnotationAdvice: Advice :=
    Advice("atAnnotationAspect", LowestPrecedence, Around(LogAndProceed("[@annotation]")), AtAnnotation(MethodAop))

  lemma AtAnnotationChains(w: World, kind: ProxyKind, args: seq<Value>)
    ensures ChainFor(w, [AtAnnotationAspect], Call(Bean(MemberServiceImpl, kind), Hello, args)) == [AtAnnotationAdvice]
    ensures ChainFor(w, [AtAnnotationAspect], Call(Bean(MemberServiceImpl, kind), Internal, args)) == []
  {
    assert Outermost([AtAnnotationAspect]) == [AtAnnotationAspect];
    SingleAdviceLayer(AtAnnotationAspect);
    AtAnnotationCases(w, Context(w, Call(Bean(MemberServiceImpl, kind), Hello, args)));
    AtAnnotationCases(w, Context(w, Call(Bean(MemberServiceImpl, kind), Internal, args)));
    ApplicableOne(w, AtAnnotationAdvice, Call(Bean(MemberServiceImpl, kind), Hello, args));
    ApplicableOne(w, AtAnnotationAdvice, Call(Bean(MemberServiceImpl, kind), Internal, args));
  }

  /** The `@annotation` advice on `hello` logs once, proceeds once and returns what
      `hello` returned; `internal` runs with no advice at all. */
  lemma AtAnnotationTrace(env: Env, kind: ProxyKind, args: seq<Value>, body: Body, counter: Int32)
    requires env.registry == [AtAnnotationAspect]
    ensures var c := Call(Bean(MemberServiceImpl, kind), Hello, args);
            var inner := Exec(env, c, body, counter);
            Invoke(env, c, body, counter) == Res(inner.out, inner.counter, [Note("[@annotation]", Hello)] + inner.events)
    ensures var c := Call(Bean(MemberServiceImpl, kind), Internal, args);
            Invoke(env, c, body, counter) == Exec(env, c, body, counter)
  {
    AtAnnotationChains(env.w, kind, args);
    LogAlone(env, AtAnnotationAdvice, Call(Bean(MemberServiceImpl, kind), Hello, args), body, counter, "[@annotation]");
  }

  /** `@args` reads the runtime class of the argument: a Child passed as the argument
      satisfies `@args(ClassAop)`, a plain Parent does not. */
  lemma AtArgsRuntime(w: World, m: Method, view: set<TypeName>, target: TypeName)
    requires ParentChildWorld(w)
    ensures Eval(w, AtArgs([ClassAop]), m, Ctx(view, target, [Child]))
    ensures !Eval(w, AtArgs([ClassAop]), m, Ctx(view, target, [Parent]))
  {
    assert TypeAnnotations(w, Child)[0].kind == ClassAop;
    assert [Parent][0] == Parent && !HasAnnotation(TypeAnnotations(w, Parent), ClassAop);
  }
}
