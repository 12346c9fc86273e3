/** The `hello.aop.internalcall` example: CallLogAspect logs every method of the
    package before it runs. `CallServiceV0.external` calls `internal` on itself, so the
    nested call never meets the proxy; `CallServiceV1` calls it through its injected
    self-reference and `CallServiceV3` through a separate `InternalService` bean, and
    both get the advice back on the nested call. */
module InternalCall {
  import opened JavaInt
  import opened Outcomes
  import opened Types
  import opened Pointcut
  import opened PointcutLaws
  import opened Proxy
  import opened Chain
  import opened Interception
  import opened InterceptionLaws
  import opened Fixtures
  import opened Aspects
  import Glob

  // ---------------------------------------------------------------- the pointcut

  lemma InternalCallPkgLiteral()
    ensures AllLiteral(InternalCallPkg)
  {
    assert InternalCallPkg == ["hello", "aop", "internalcall"];
    assert Glob.NoStar("hello") && Glob.NoStar("aop") && Glob.NoStar("internalcall");
  }

  /** CallLogAspect's one advice as it sits in a chain. */
  const CallLogAdvice: Advice := Advice("callLogAspect", LowestPrecedence, Before("aop", false), InternalCallTree)

  lemma CallLogLayers()
    ensures Layers(Outermost([CallLogAspect])) == [CallLogAdvice]
  {
    assert Outermost([CallLogAspect]) == [CallLogAspect];
    SingleAdviceLayer(CallLogAspect);
  }

  /** With CallLogAspect registered, a call gets the log advice exactly when the method's
      class lies in `hello.aop.internalcall` or below, and no advice otherwise. */
  lemma CallLogChain(w: World, c: Call)
    requires OwnMethod(w, c.m)
    ensures ChainFor(w, [CallLogAspect], c)
         == if InternalCallPkg <= c.m.declaringType.pkg then [CallLogAdvice] else []
  {
    CallLogLayers();
    InternalCallPkgLiteral();
    PackageTreeSelects(w, InternalCallPkg, c.m, Context(w, c));
    assert Applies(w, CallLogAdvice, c) <==> InternalCallPkg <= c.m.declaringType.pkg;
    ApplicableOne(w, CallLogAdvice, c);
  }

  // ---------------------------------------------------------------- a before advice alone

  /** A before advice that logs the signature, alone around a target: it logs first,
      and the call then ends as the target does, with its counter and its events. */
  lemma SignatureBefore(env: Env, x: Advice, c: Call, body: Body, counter: Int32)
    requires x.kind.Before? && !x.kind.withArgs
    ensures var inner := Exec(env, c, body, counter);
            RunChain(env, [x], c, body, counter)
              == Res(inner.out, inner.counter, [Note(x.kind.tag, c.m)] + inner.events)
  {
    assert [x][1..] == [];
    var inner := Exec(env, c, body, counter);
    assert [Note(x.kind.tag, c.m)] + inner.events + [] == [Note(x.kind.tag, c.m)] + inner.events;
  }

  /** CallLogAspect changes nothing about the call it selects: same outcome, same
      counter, the target's own log preceded by one "aop" line. */
  lemma CallLogPassesThrough(env: Env, c: Call, body: Body, counter: Int32)
    requires env.registry == [CallLogAspect] && OwnMethod(env.w, c.m)
    requires InternalCallPkg <= c.m.declaringType.pkg
    ensures var inner := Exec(env, c, body, counter);
            Invoke(env, c, body, counter) == Res(inner.out, inner.counter, [Note("aop", c.m)] + inner.events)
  {
    CallLogChain(env.w, c);
    SignatureBefore(env, CallLogAdvice, c, body, counter);
  }

  // ---------------------------------------------------------------- the two routes

  /** A method that only logs its lines and returns. */
  function LogOnly(lines: seq<string>): Body {
    Fixed(lines, Returned(Void))
  }

  /** An advised method logging one line and then calling another one on `this`: the
      log advice runs for the outer method only. */
  lemma ThisRouteTrace(env: Env, c: Call, x: Advice, tag: string, line: string, callee: Method,
                       innerLine: string, counter: Int32)
    requires ChainFor(env.w, env.registry, c) == [x] && x.kind == Before(tag, false)
    ensures Invoke(env, c, Delegate([line], ViaThis, callee, LogOnly([innerLine])), counter)
         == Res(Returned(Void), counter, [Note(tag, c.m), Line(line), Line(innerLine)])
  {
    SignatureBefore(env, x, c, Delegate([line], ViaThis, callee, LogOnly([innerLine])), counter);
    ThisDelegate(env, c, line, callee, innerLine, counter);
  }

  /** Logging a line and calling a logging method on `this`: both lines, in order. */
  lemma ThisDelegate(env: Env, c: Call, line: string, callee: Method, innerLine: string, counter: Int32)
    ensures Exec(env, c, Delegate([line], ViaThis, callee, LogOnly([innerLine])), counter)
         == Res(Returned(Void), counter, [Line(line), Line(innerLine)])
  {
    assert Lines([line]) == [Line(line)];
    assert Lines([innerLine]) == [Line(innerLine)];
  }

  /** The nested call through a proxy whose chain is one signature-logging advice. */
  lemma NestedLogged(env: Env, c: Call, x: Advice, tag: string, b: Bean, callee: Method,
                     innerLine: string, counter: Int32)
    requires ChainFor(env.w, env.registry, Call(b, callee, c.args)) == [x] && x.kind == Before(tag, false)
    ensures ProxiedInner(env, c, b, callee, LogOnly([innerLine]), counter)
         == Res(Returned(Void), counter, [Note(tag, callee), Line(innerLine)])
  {
    SignatureBefore(env, x, Call(b, callee, c.args), LogOnly([innerLine]), counter);
    assert Lines([innerLine]) == [Line(innerLine)];
  }

  /** An advised method logging one line and then calling another one through a proxy
      whose chain is the same log advice: both calls are logged by the advice, each
      just before its own line. */
  lemma ProxyRouteTrace(env: Env, c: Call, x: Advice, tag: string, line: string, b: Bean, callee: Method,
                        innerLine: string, counter: Int32)
    requires ChainFor(env.w, env.registry, c) == [x] && x.kind == Before(tag, false)
    requires ChainFor(env.w, env.registry, Call(b, callee, c.args)) == [x]
    ensures Invoke(env, c, Delegate([line], ViaProxy(b), callee, LogOnly([innerLine])), counter)
         == Res(Returned(Void), counter, [Note(tag, c.m), Line(line), Note(tag, callee), Line(innerLine)])
  {
    var body := Delegate([line], ViaProxy(b), callee, LogOnly([innerLine]));
    SignatureBefore(env, x, c, body, counter);
    ProxiedCallOutcome(env, c, [line], b, callee, LogOnly([innerLine]), counter);
    NestedLogged(env, c, x, tag, b, callee, innerLine, counter);
    assert Lines([line]) == [Line(line)];
  }

  // ---------------------------------------------------------------- the three services

  /** None of the three services implements an interface: all get subclass proxies. */
  const V0Bean: Bean := Bean(CallServiceV0, SubclassBased)
  const V1Bean: Bean := Bean(CallServiceV1, SubclassBased)
  const V3Bean: Bean := Bean(CallServiceV3, SubclassBased)
  const InternalServiceBean: Bean := Bean(InternalService, SubclassBased)

  /** `internal()` in each class: it logs "call internal". */
  const InternalBody: Body := LogOnly(["call internal"])

  /** CallServiceV0.external: log, then `internal()` on `this`. */
  const V0External: Body := Delegate(["call external"], ViaThis, InternalOf(CallServiceV0), InternalBody)

  /** CallServiceV1.external: log, then `callServiceV1.internal()` on the injected proxy. */
  const V1External: Body := Delegate(["call external"], ViaProxy(V1Bean), InternalOf(CallServiceV1), InternalBody)

  /** CallServiceV3.external: log, then `internalService.internal()` on that bean's proxy. */
  const V3External: Body :=
    Delegate(["call external"], ViaProxy(InternalServiceBean), InternalOf(InternalService), InternalBody)

  /** Every method of the four classes is their own: none comes from a supertype. */
  predicate InternalCallWorld(w: World) {
    && OwnMethod(w, External(CallServiceV0)) && OwnMethod(w, InternalOf(CallServiceV0))
    && OwnMethod(w, External(CallServiceV1)) && OwnMethod(w, InternalOf(CallServiceV1))
    && OwnMethod(w, External(CallServiceV3)) && OwnMethod(w, InternalOf(InternalService))
  }

  /** The application's class table is such a world. */
  lemma AppInternalCallWorld()
    ensures InternalCallWorld(AppWorld)
  {
    assert Supertypes(AppWorld, CallServiceV0) == {ObjectType};
    assert Supertypes(AppWorld, CallServiceV1) == {ObjectType};
    assert Supertypes(AppWorld, CallServiceV3) == {ObjectType};
    assert Supertypes(AppWorld, InternalService) == {ObjectType};
  }

  /** The four classes sit in `hello.aop.internalcall`, so each of their methods gets
      the log advice and nothing else. */
  lemma InternalCallChain(w: World, cls: TypeName, m: Method, b: Bean)
    requires OwnMethod(w, m) && m.declaringType == cls && cls.pkg == InternalCallPkg
    ensures ChainFor(w, [CallLogAspect], Call(b, m, [])) == [CallLogAdvice]
  {
    CallLogChain(w, Call(b, m, []));
  }

  /** CallServiceV0.external through the proxy: the advice runs once, for `external`;
      the nested `this.internal()` runs unadvised. */
  lemma V0ExternalTrace(env: Env, counter: Int32)
    requires env.registry == [CallLogAspect] && InternalCallWorld(env.w)
    ensures Invoke(env, Call(V0Bean, External(CallServiceV0), []), V0External, counter)
         == Res(Returned(Void), counter,
                [Note("aop", External(CallServiceV0)), Line("call external"), Line("call internal")])
  {
    var c := Call(V0Bean, External(CallServiceV0), []);
    InternalCallChain(env.w, CallServiceV0, c.m, V0Bean);
    ThisRouteTrace(env, c, CallLogAdvice, "aop", "call external", InternalOf(CallServiceV0), "call internal", counter);
  }

  /** The self-call bypass in general: CallServiceV0.external runs as if no aspect were
      registered, apart from the advice on the outer call itself. */
  lemma V0NestedUnadvised(env: Env, counter: Int32)
    ensures Exec(env, Call(V0Bean, External(CallServiceV0), []), V0External, counter)
         == Exec(Env(env.w, []), Call(V0Bean, External(CallServiceV0), []), V0External, counter)
  {
    SelfCallsUnadvised(env, Call(V0Bean, External(CallServiceV0), []), V0External, counter);
  }

  /** CallServiceV0.internal called from outside, through the proxy, is advised. */
  lemma V0InternalTrace(env: Env, counter: Int32)
    requires env.registry == [CallLogAspect] && InternalCallWorld(env.w)
    ensures Invoke(env, Call(V0Bean, InternalOf(CallServiceV0), []), InternalBody, counter)
         == Res(Returned(Void), counter, [Note("aop", InternalOf(CallServiceV0)), Line("call internal")])
  {
    var c := Call(V0Bean, InternalOf(CallServiceV0), []);
    InternalCallChain(env.w, CallServiceV0, c.m, V0Bean);
    SignatureBefore(env, CallLogAdvice, c, InternalBody, counter);
  }

  /** CallServiceV1.external through the proxy: both `external` and the nested
      `internal` are advised, each advice just before its method's own line. */
  lemma V1ExternalTrace(env: Env, counter: Int32)
    requires env.registry == [CallLogAspect] && InternalCallWorld(env.w)
    ensures Invoke(env, Call(V1Bean, External(CallServiceV1), []), V1External, counter)
         == Res(Returned(Void), counter,
                [Note("aop", External(CallServiceV1)), Line("call external"),
                 Note("aop", InternalOf(CallServiceV1)), Line("call internal")])
  {
    var c := Call(V1Bean, External(CallServiceV1), []);
    InternalCallChain(env.w, CallServiceV1, c.m, V1Bean);
    InternalCallChain(env.w, CallServiceV1, InternalOf(CallServiceV1), V1Bean);
    ProxyRouteTrace(env, c, CallLogAdvice, "aop", "call external", V1Bean, InternalOf(CallServiceV1), "call internal", counter);
  }

  /** CallServiceV3.external through the proxy: the nested call goes to the separate
      InternalService bean, which lies in the same package and is advised too. */
  lemma V3ExternalTrace(env: Env, counter: Int32)
    requires env.registry == [CallLogAspect] && InternalCallWorld(env.w)
    ensures Invoke(env, Call(V3Bean, External(CallServiceV3), []), V3External, counter)
         == Res(Returned(Void), counter,
                [Note("aop", External(CallServiceV3)), Line("call external"),
                 Note("aop", InternalOf(InternalService)), Line("call internal")])
  {
    var c := Call(V3Bean, External(CallServiceV3), []);
    InternalCallChain(env.w, CallServiceV3, c.m, V3Bean);
    InternalCallChain(env.w, InternalService, InternalOf(InternalService), InternalServiceBean);
    ProxyRouteTrace(env, c, CallLogAdvice, "aop", "call external", InternalServiceBean, InternalOf(InternalService),
                    "call internal", counter);
  }
}
