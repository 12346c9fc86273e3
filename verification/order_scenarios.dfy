/** The `hello.aop.order` example: the shared pointcuts, and what AspectV1 to AspectV6
    do around `OrderService.orderItem` and `OrderRepository.save`. The two order classes
    are opaque here: their bodies are arbitrary. */
module OrderScenarios {
  import opened JavaInt
  import opened Outcomes
  import opened Types
  import opened Pointcut
  import opened PointcutLaws
  import opened Proxy
  import opened Chain
  import opened Interception
  import opened InterceptionLaws
  import opened Fixtures
  import opened Aspects
  import Glob

  // ---------------------------------------------------------------- the shared pointcuts

  /** `allOrder()`: every method of a type in `hello.aop.order` or a sub-package. */
  lemma AllOrderSelects(w: World, m: Method, ctx: Ctx)
    requires OwnMethod(w, m)
    ensures Eval(w, AllOrder, m, ctx) <==> OrderPkg <= m.declaringType.pkg
  {
    DeclaredOnlyHere(w, Lits(OrderPkg) + [AnyPackages, Name("*")], m);
    PackageTreeMatch(OrderPkg, m.declaringType);
    Glob.StarMatchesAll(m.name);
    AnyParamsMatchesAll(w, m.params, true);
  }

  /** `allService()`: every method of a type, in any named package, whose simple name
      ends in "Service". */
  lemma AllServiceSelects(w: World, m: Method, ctx: Ctx)
    requires OwnMethod(w, m)
    ensures Eval(w, AllService, m, ctx) <==> |m.declaringType.pkg| >= 1 && Glob.IsSuffix("Service", m.declaringType.simple)
  {
    DeclaredOnlyHere(w, [Name("*"), AnyPackages, Name("*Service")], m);
    assert "*" + "Service" == "*Service";
    NameSuffixMatch("Service", m.declaringType);
    Glob.StarMatchesAll(m.name);
    AnyParamsMatchesAll(w, m.params, true);
  }

  /** `orderAndService()`: a `*Service` type in `hello.aop.order` or below, so never more
      than either operand selects. */
  lemma OrderAndServiceSelects(w: World, m: Method, ctx: Ctx)
    requires OwnMethod(w, m)
    ensures Eval(w, OrderAndService, m, ctx)
        <==> OrderPkg <= m.declaringType.pkg && Glob.IsSuffix("Service", m.declaringType.simple)
    ensures Eval(w, OrderAndService, m, ctx) ==> Eval(w, AllOrder, m, ctx) && Eval(w, AllService, m, ctx)
  {
    AllOrderSelects(w, m, ctx);
    AllServiceSelects(w, m, ctx);
  }

  /** In the application's class table neither order class inherits its methods, so
      the lemmas below, stated for any such table, cover it. */
  lemma OrderMethodsOwn()
    ensures OwnMethod(AppWorld, OrderItem) && OwnMethod(AppWorld, OrderSave)
  {
    assert Supertypes(AppWorld, OrderService) == {ObjectType};
    assert Supertypes(AppWorld, OrderRepository) == {ObjectType};
  }

  /** AspectV3: `doLog` applies to both order types, `doTransaction` to OrderService only. */
  lemma OrderSelection(w: World, ctx: Ctx)
    requires OwnMethod(w, OrderItem) && OwnMethod(w, OrderSave)
    ensures Eval(w, AllOrder, OrderItem, ctx) && Eval(w, AllOrder, OrderSave, ctx)
    ensures Eval(w, OrderAndService, OrderItem, ctx)
    ensures !Eval(w, OrderAndService, OrderSave, ctx)
  {
    ServiceSelected(w, ctx);
    RepositorySelected(w, ctx);
  }

  lemma ServiceSelected(w: World, ctx: Ctx)
    requires OwnMethod(w, OrderItem)
    ensures Eval(w, AllOrder, OrderItem, ctx) && Eval(w, OrderAndService, OrderItem, ctx)
  {
    assert OrderService.simple[5..] == "Service";
    OrderAndServiceSelects(w, OrderItem, ctx);
  }

  lemma RepositorySelected(w: World, ctx: Ctx)
    requires OwnMethod(w, OrderSave)
    ensures Eval(w, AllOrder, OrderSave, ctx) && !Eval(w, OrderAndService, OrderSave, ctx)
  {
    assert OrderRepository.simple[8..][0] != "Service"[0];
    AllOrderSelects(w, OrderSave, ctx);
    OrderAndServiceSelects(w, OrderSave, ctx);
  }

  // ---------------------------------------------------------------- calls

  const OrderServiceBean: Bean := Bean(OrderService, SubclassBased)
  const OrderRepositoryBean: Bean := Bean(OrderRepository, SubclassBased)

  function ItemCall(itemId: string): Call { Call(OrderServiceBean, OrderItem, [Str(itemId)]) }
  function SaveCall(itemId: string): Call { Call(OrderRepositoryBean, OrderSave, [Str(itemId)]) }

  // ---------------------------------------------------------------- chains

  const LogAdvice: Advice := Advice("logAspect", 2, DoLog.kind, DoLog.selector)
  const TxAdvice: Advice := Advice("txAspect", 1, DoTransaction.kind, DoTransaction.selector)

  /** AspectV5Order's two aspects, registered in either order. */
  predicate V5Registry(registry: seq<Aspect>) {
    registry == [LogAspect, TxAspect] || registry == [TxAspect, LogAspect]
  }

  /** AspectV5Order: TxAspect (`@Order(1)`) is the outer layer, whatever the order of
      registration. */
  lemma V5Layers(registry: seq<Aspect>)
    requires V5Registry(registry)
    ensures Layers(Outermost(registry)) == [TxAdvice, LogAdvice]
  {
    TwoAspects(TxAspect, LogAspect);
    TwoLayers(TxAspect, LogAspect);
    SingleAdviceLayer(TxAspect);
    SingleAdviceLayer(LogAspect);
  }

  /** The two advices of AspectV5Order: a transaction on `orderAndService()` and a log
      on `allOrder()`. */
  lemma V5Advice()
    ensures TxAdvice.kind == Around(Transaction) && TxAdvice.selector == OrderAndService
    ensures LogAdvice.kind == Around(LogAndProceed("[log]")) && LogAdvice.selector == AllOrder
  {
  }

  lemma V5ItemChain(w: World, registry: seq<Aspect>, itemId: string)
    requires V5Registry(registry) && OwnMethod(w, OrderItem)
    ensures ChainFor(w, registry, ItemCall(itemId)) == [TxAdvice, LogAdvice]
  {
    V5Layers(registry);
    V5Advice();
    ApplicableTwo(w, TxAdvice, LogAdvice, ItemCall(itemId));
    ServiceSelected(w, Context(w, ItemCall(itemId)));
  }

  lemma V5SaveChain(w: World, registry: seq<Aspect>, itemId: string)
    requires V5Registry(registry) && OwnMethod(w, OrderSave)
    ensures ChainFor(w, registry, SaveCall(itemId)) == [LogAdvice]
  {
    V5Layers(registry);
    V5Advice();
    ApplicableTwo(w, TxAdvice, LogAdvice, SaveCall(itemId));
    RepositorySelected(w, Context(w, SaveCall(itemId)));
  }

  /** AspectV5Order: TxAspect (`@Order(1)`) wraps LogAspect (`@Order(2)`) on
      OrderService: start, log, the target, then commit and release, or rollback and
      release when the target throws an Exception. The outcome is the target's. */
  lemma V5Nesting(env: Env, itemId: string, body: Body, counter: Int32)
    requires V5Registry(env.registry) && OwnMethod(env.w, OrderItem)
    ensures var c := ItemCall(itemId);
            var inner := Exec(env, c, body, counter);
            var r := Invoke(env, c, body, counter);
            && r.out == inner.out && r.counter == inner.counter
            && (inner.out.Returned? ==>
                  r.events == [TxStart(OrderItem), Note("[log]", OrderItem)] + inner.events
                              + [TxCommit(OrderItem), TxRelease(OrderItem)])
            && (inner.out.Threw? && IsException(inner.out.fault) ==>
                  r.events == [TxStart(OrderItem), Note("[log]", OrderItem)] + inner.events
                              + [TxRollback(OrderItem), TxRelease(OrderItem)])
  {
    var c := ItemCall(itemId);
    V5ItemChain(env.w, env.registry, itemId);
    V5Advice();
    TransactionAroundLog(env, ChainFor(env.w, env.registry, c), c, body, counter, "[log]");
  }

  /** A transaction advice wrapping a logging advice wrapping the target. */
  lemma TransactionAroundLog(env: Env, chain: seq<Advice>, c: Call, body: Body, counter: Int32, tag: string)
    requires |chain| == 2 && chain[0].kind == Around(Transaction) && chain[1].kind == Around(LogAndProceed(tag))
    ensures var inner := Exec(env, c, body, counter);
            var r := RunChain(env, chain, c, body, counter);
            && r.out == inner.out && r.counter == inner.counter
            && (inner.out.Returned? ==>
                  r.events == [TxStart(c.m), Note(tag, c.m)] + inner.events + [TxCommit(c.m), TxRelease(c.m)])
            && (inner.out.Threw? && IsException(inner.out.fault) ==>
                  r.events == [TxStart(c.m), Note(tag, c.m)] + inner.events + [TxRollback(c.m), TxRelease(c.m)])
  {
    var inner := Exec(env, c, body, counter);
    assert chain == [chain[0], chain[1]];
    assert NoRetry(chain) by { assert forall i :: 0 <= i < 2 ==> !IsRetry(chain[i]); }
    Nesting(env, chain, c, body, counter);
    TransactionLogEvents(chain[0], chain[1], c, tag, inner.out, inner.events);
  }

  /** The log lines a transaction advice around a logging advice adds around the
      target's own lines. */
  lemma TransactionLogEvents(x: Advice, y: Advice, c: Call, tag: string, out: Outcome, evs: seq<Event>)
    requires x.kind == Around(Transaction) && y.kind == Around(LogAndProceed(tag))
    ensures out.Returned? ==>
              Entries([x, y], c) + evs + Exits([x, y], c, out)
                == [TxStart(c.m), Note(tag, c.m)] + evs + [TxCommit(c.m), TxRelease(c.m)]
    ensures out.Threw? && IsException(out.fault) ==>
              Entries([x, y], c) + evs + Exits([x, y], c, out)
                == [TxStart(c.m), Note(tag, c.m)] + evs + [TxRollback(c.m), TxRelease(c.m)]
  {
    TwoWrappers(x, y, c, out);
    assert Exit(y, c, out) == [];
  }

  /** AspectV5Order on OrderRepository: only the log advice, which returns the target's
      outcome unchanged. */
  lemma V5RepositoryLogOnly(env: Env, itemId: string, body: Body, counter: Int32)
    requires V5Registry(env.registry) && OwnMethod(env.w, OrderSave)
    ensures var c := SaveCall(itemId);
            var inner := Exec(env, c, body, counter);
            Invoke(env, c, body, counter) == Res(inner.out, inner.counter, [Note("[log]", OrderSave)] + inner.events)
  {
    V5SaveChain(env.w, env.registry, itemId);
    V5Advice();
    LogAlone(env, LogAdvice, SaveCall(itemId), body, counter, "[log]");
  }

  // ---------------------------------------------------------------- AspectV1 to AspectV4

  /** An advice method of aspect `a` as it sits in the chain. */
  function Bound(a: Aspect, d: AdviceDecl): Advice {
    Advice(a.name, a.order, d.kind, d.selector)
  }

  /** An aspect whose one advice is `doLog` on `allOrder()` (AspectV1, and AspectV2
      through its named pointcut) puts that advice on exactly the order-tree methods. */
  lemma DoLogChain(w: World, a: Aspect, c: Call)
    requires a.advices == [DoLog] && OwnMethod(w, c.m)
    ensures ChainFor(w, [a], c) == if OrderPkg <= c.m.declaringType.pkg then [Bound(a, DoLog)] else []
  {
    assert Outermost([a]) == [a];
    SingleAdviceLayer(a);
    AllOrderSelects(w, c.m, Context(w, c));
    ApplicableOne(w, Bound(a, DoLog), c);
  }

  /** Such an aspect logs the signature, proceeds once and returns what the target
      returned (or rethrows what it threw) on an order-tree method, and leaves every
      other method alone. */
  lemma DoLogRun(env: Env, a: Aspect, c: Call, body: Body, counter: Int32)
    requires env.registry == [a] && a.advices == [DoLog] && OwnMethod(env.w, c.m)
    ensures var inner := Exec(env, c, body, counter);
            Invoke(env, c, body, counter)
              == if OrderPkg <= c.m.declaringType.pkg then Res(inner.out, inner.counter, [Note("[log]", c.m)] + inner.events)
                 else inner
  {
    DoLogChain(env.w, a, c);
    if OrderPkg <= c.m.declaringType.pkg {
      LogAlone(env, Bound(a, DoLog), c, body, counter, "[log]");
    }
  }

  /** AspectV1: `execution(* hello.aop.order..*(..))` around `doLog`. */
  lemma V1Run(env: Env, c: Call, body: Body, counter: Int32)
    requires env.registry == [AspectV1] && OwnMethod(env.w, c.m)
    ensures var inner := Exec(env, c, body, counter);
            Invoke(env, c, body, counter)
              == if OrderPkg <= c.m.declaringType.pkg then Res(inner.out, inner.counter, [Note("[log]", c.m)] + inner.events)
                 else inner
  {
    DoLogRun(env, AspectV1, c, body, counter);
  }

  /** AspectV2: the same advice through the named pointcut `allOrder()`, with the same
      effect as AspectV1. */
  lemma V2Run(env: Env, c: Call, body: Body, counter: Int32)
    requires env.registry == [AspectV2] && OwnMethod(env.w, c.m)
    ensures var inner := Exec(env, c, body, counter);
            Invoke(env, c, body, counter)
              == if OrderPkg <= c.m.declaringType.pkg then Res(inner.out, inner.counter, [Note("[log]", c.m)] + inner.events)
                 else inner
  {
    DoLogRun(env, AspectV2, c, body, counter);
  }

  /** An aspect declaring `doLog` then `doTransaction`, both around advice: the two keep
      their declaration order in the chain. */
  lemma LogThenTransactionLayers(a: Aspect)
    requires a.advices == [DoLog, DoTransaction]
    ensures Layers(Outermost([a])) == [Bound(a, DoLog), Bound(a, DoTransaction)]
  {
    assert Outermost([a]) == [a];
    SortByTies(a.advices, DeclRank, 0);
    assert Layers([a]) == Layer(a, a.advices) + Layers([]);
    assert a.advices[1..][1..] == [];
  }

  /** Both advices select `orderItem`; only `doLog` selects `OrderRepository.save`. */
  lemma LogThenTransactionItemChain(w: World, a: Aspect, itemId: string)
    requires a.advices == [DoLog, DoTransaction] && OwnMethod(w, OrderItem)
    ensures ChainFor(w, [a], ItemCall(itemId)) == [Bound(a, DoLog), Bound(a, DoTransaction)]
  {
    LogThenTransactionLayers(a);
    ServiceSelected(w, Context(w, ItemCall(itemId)));
    ApplicableTwo(w, Bound(a, DoLog), Bound(a, DoTransaction), ItemCall(itemId));
  }

  lemma LogThenTransactionSaveChain(w: World, a: Aspect, itemId: string)
    requires a.advices == [DoLog, DoTransaction] && OwnMethod(w, OrderSave)
    ensures ChainFor(w, [a], SaveCall(itemId)) == [Bound(a, DoLog)]
  {
    LogThenTransactionLayers(a);
    RepositorySelected(w, Context(w, SaveCall(itemId)));
    ApplicableTwo(w, Bound(a, DoLog), Bound(a, DoTransaction), SaveCall(itemId));
  }

  /** A logging advice wrapping a transaction advice wrapping the target. */
  lemma LogAroundTransaction(env: Env, chain: seq<Advice>, c: Call, body: Body, counter: Int32, tag: string)
    requires |chain| == 2 && chain[0].kind == Around(LogAndProceed(tag)) && chain[1].kind == Around(Transaction)
    ensures var inner := Exec(env, c, body, counter);
            var r := RunChain(env, chain, c, body, counter);
            && r.out == inner.out && r.counter == inner.counter
            && (inner.out.Returned? ==>
                  r.events == [Note(tag, c.m), TxStart(c.m)] + inner.events + [TxCommit(c.m), TxRelease(c.m)])
            && (inner.out.Threw? && IsException(inner.out.fault) ==>
                  r.events == [Note(tag, c.m), TxStart(c.m)] + inner.events + [TxRollback(c.m), TxRelease(c.m)])
  {
    var inner := Exec(env, c, body, counter);
    assert chain == [chain[0], chain[1]];
    assert NoRetry(chain) by { assert forall i :: 0 <= i < 2 ==> !IsRetry(chain[i]); }
    Nesting(env, chain, c, body, counter);
    LogTransactionEvents(chain[0], chain[1], c, tag, inner.out, inner.events);
  }

  /** The log lines a logging advice around a transaction advice adds around the
      target's own lines. */
  lemma LogTransactionEvents(x: Advice, y: Advice, c: Call, tag: string, out: Outcome, evs: seq<Event>)
    requires x.kind == Around(LogAndProceed(tag)) && y.kind == Around(Transaction)
    ensures out.Returned? ==>
              Entries([x, y], c) + evs + Exits([x, y], c, out)
                == [Note(tag, c.m), TxStart(c.m)] + evs + [TxCommit(c.m), TxRelease(c.m)]
    ensures out.Threw? && IsException(out.fault) ==>
              Entries([x, y], c) + evs + Exits([x, y], c, out)
                == [Note(tag, c.m), TxStart(c.m)] + evs + [TxRollback(c.m), TxRelease(c.m)]
  {
    TwoWrappers(x, y, c, out);
    assert Exit(x, c, out) == [];
  }

  /** AspectV3 and AspectV4Pointcut on `orderItem`: `doLog` enters first, then the
      transaction; commit and release on a normal return, rollback and release on an
      Exception, which still reaches the caller. */
  lemma LogThenTransactionItem(env: Env, a: Aspect, itemId: string, body: Body, counter: Int32)
    requires env.registry == [a] && a.advices == [DoLog, DoTransaction] && OwnMethod(env.w, OrderItem)
    ensures var c := ItemCall(itemId);
            var inner := Exec(env, c, body, counter);
            var r := Invoke(env, c, body, counter);
            && r.out == inner.out && r.counter == inner.counter
            && (inner.out.Returned? ==>
                  r.events == [Note("[log]", OrderItem), TxStart(OrderItem)] + inner.events
                              + [TxCommit(OrderItem), TxRelease(OrderItem)])
            && (inner.out.Threw? && IsException(inner.out.fault) ==>
                  r.events == [Note("[log]", OrderItem), TxStart(OrderItem)] + inner.events
                              + [TxRollback(OrderItem), TxRelease(OrderItem)])
  {
    var c := ItemCall(itemId);
    LogThenTransactionItemChain(env.w, a, itemId);
    LogAroundTransaction(env, [Bound(a, DoLog), Bound(a, DoTransaction)], c, body, counter, "[log]");
  }

  /** AspectV3 and AspectV4Pointcut on `OrderRepository.save`: only `doLog`. */
  lemma LogThenTransactionSave(env: Env, a: Aspect, itemId: string, body: Body, counter: Int32)
    requires env.registry == [a] && a.advices == [DoLog, DoTransaction] && OwnMethod(env.w, OrderSave)
    ensures var c := SaveCall(itemId);
            var inner := Exec(env, c, body, counter);
            Invoke(env, c, body, counter) == Res(inner.out, inner.counter, [Note("[log]", OrderSave)] + inner.events)
  {
    var c := SaveCall(itemId);
    LogThenTransactionSaveChain(env.w, a, itemId);
    LogAlone(env, Bound(a, DoLog), c, body, counter, "[log]");
  }

  /** AopTest registers AspectV3: `orderItem` is logged and wrapped in a transaction. */
  lemma V3Item(env: Env, itemId: string, body: Body, counter: Int32)
    requires env.registry == [AspectV3] && OwnMethod(env.w, OrderItem)
    ensures var c := ItemCall(itemId);
            var inner := Exec(env, c, body, counter);
            var r := Invoke(env, c, body, counter);
            && r.out == inner.out && r.counter == inner.counter
            && (inner.out.Returned? ==>
                  r.events == [Note("[log]", OrderItem), TxStart(OrderItem)] + inner.events
                              + [TxCommit(OrderItem), TxRelease(OrderItem)])
            && (inner.out.Threw? && IsException(inner.out.fault) ==>
                  r.events == [Note("[log]", OrderItem), TxStart(OrderItem)] + inner.events
                              + [TxRollback(OrderItem), TxRelease(OrderItem)])
  {
    LogThenTransactionItem(env, AspectV3, itemId, body, counter);
  }

  /** AspectV4Pointcut binds the same two advices to the shared `Pointcuts`, with the
      same effect on `orderItem` as AspectV3. */
  lemma V4Item(env: Env, itemId: string, body: Body, counter: Int32)
    requires env.registry == [AspectV4] && OwnMethod(env.w, OrderItem)
    ensures var c := ItemCall(itemId);
            var inner := Exec(env, c, body, counter);
            var r := Invoke(env, c, body, counter);
            && r.out == inner.out && r.counter == inner.counter
            && (inner.out.Returned? ==>
                  r.events == [Note("[log]", OrderItem), TxStart(OrderItem)] + inner.events
                              + [TxCommit(OrderItem), TxRelease(OrderItem)])
            && (inner.out.Threw? && IsException(inner.out.fault) ==>
                  r.events == [Note("[log]", OrderItem), TxStart(OrderItem)] + inner.events
                              + [TxRollback(OrderItem), TxRelease(OrderItem)])
  {
    LogThenTransactionItem(env, AspectV4, itemId, body, counter);
  }

  // ---------------------------------------------------------------- AspectV6Advice

  /** AspectV6Advice's advice methods in kind precedence: around, before, after,
      after-returning, after-throwing. */
  const V6Precedence: seq<AdviceDecl> := [V6Transaction, V6Before, V6After, V6Return, V6Throwing]

  /** The chain AspectV6Advice builds on a method all five advice methods select. */
  const V6Chain: seq<Advice> := Layer(AspectV6, V6Precedence)

  lemma SortTwo(x: AdviceDecl, a: AdviceDecl)
    requires DeclRank(a) < DeclRank(x)
    ensures SortBy([x, a], DeclRank) == [a, x]
  {
    assert [x, a][1..] == [a];
    assert SortBy([a], DeclRank) == [a];
    assert Insert(x, [a], DeclRank) == [a] + Insert(x, [], DeclRank);
  }

  lemma SortThree(r: AdviceDecl, x: AdviceDecl, a: AdviceDecl)
    requires DeclRank(a) < DeclRank(r) <= DeclRank(x)
    ensures SortBy([r, x, a], DeclRank) == [a, r, x]
  {
    assert [r, x, a][1..] == [x, a];
    SortTwo(x, a);
    assert [a, x][1..] == [x];
    assert Insert(r, [a, x], DeclRank) == [a] + Insert(r, [x], DeclRank);
  }

  lemma SortFour(b: AdviceDecl, r: AdviceDecl, x: AdviceDecl, a: AdviceDecl)
    requires DeclRank(b) <= DeclRank(a) < DeclRank(r) <= DeclRank(x)
    ensures SortBy([b, r, x, a], DeclRank) == [b, a, r, x]
  {
    assert [b, r, x, a][1..] == [r, x, a];
    SortThree(r, x, a);
  }

  /** Five advice methods declared around, before, after-returning, after-throwing,
      after are ordered around, before, after, after-returning, after-throwing. */
  lemma KindPrecedence(t: AdviceDecl, b: AdviceDecl, r: AdviceDecl, x: AdviceDecl, a: AdviceDecl)
    requires DeclRank(t) == 0 && DeclRank(b) == 1 && DeclRank(a) == 2 && DeclRank(r) == 3 && DeclRank(x) == 4
    ensures SortBy([t, b, r, x, a], DeclRank) == [t, b, a, r, x]
  {
    assert [t, b, r, x, a][1..] == [b, r, x, a];
    SortFour(b, r, x, a);
  }

  /** AspectV6Advice alone: its five advice methods in kind precedence. */
  lemma V6Layers(registry: seq<Aspect>)
    requires registry == [AspectV6]
    ensures Layers(Outermost(registry)) == V6Chain
  {
    assert Outermost(registry) == registry by {
      assert SortBy(registry, AspectOrder) == Insert(AspectV6, [], AspectOrder);
    }
    KindPrecedence(V6Transaction, V6Before, V6Return, V6Throwing, V6After);
    assert registry[1..] == [];
    assert Layers(registry) == V6Chain + Layers([]);
  }

  lemma V6OnePointcut()
    ensures forall i :: 0 <= i < |V6Chain| ==> V6Chain[i].selector == OrderAndService
  {
    assert V6Precedence[0].selector == OrderAndService;
    assert V6Precedence[1].selector == OrderAndService;
    assert V6Precedence[2].selector == OrderAndService;
    assert V6Precedence[3].selector == OrderAndService;
    assert V6Precedence[4].selector == OrderAndService;
  }

  /** Every advice of AspectV6Advice selects `orderItem`, in kind precedence. */
  lemma V6ItemChain(w: World, registry: seq<Aspect>, itemId: string)
    requires registry == [AspectV6] && OwnMethod(w, OrderItem)
    ensures ChainFor(w, registry, ItemCall(itemId)) == V6Chain
  {
    V6Layers(registry);
    ServiceSelected(w, Context(w, ItemCall(itemId)));
    V6OnePointcut();
    OnePointcut(w, V6Chain, ItemCall(itemId), OrderAndService);
  }

  /** The kinds of the five advice methods of AspectV6Advice, in chain order. */
  predicate FiveKinds(chain: seq<Advice>, before: string, after: string, ret: string, ex: string) {
    && |chain| == 5
    && chain[0].kind == Around(Transaction) && chain[1].kind == Before(before, false)
    && chain[2].kind == After(after) && chain[3].kind == AfterReturning(ret)
    && chain[4].kind == AfterThrowing(ex)
  }

  /** Only the around and the before advice log on the way in. */
  lemma FiveEntries(chain: seq<Advice>, c: Call, before: string, after: string, ret: string, ex: string)
    requires FiveKinds(chain, before, after, ret, ex)
    ensures Entries(chain, c) == [TxStart(c.m), Note(before, c.m)]
  {
    assert chain[2..][1..] == chain[3..] && chain[3..][1..] == chain[4..] && chain[4..][1..] == [];
    assert Entries(chain[4..], c) == [];
    assert Entries(chain[3..], c) == [];
    assert Entries(chain[2..], c) == [];
    assert chain[1..][1..] == chain[2..];
    assert Entries(chain[1..], c) == [Note(before, c.m)];
  }

  /** On a normal return: after-returning, after, commit and release. */
  lemma FiveExitsReturned(chain: seq<Advice>, c: Call, v: Value, before: string, after: string, ret: string, ex: string)
    requires FiveKinds(chain, before, after, ret, ex)
    ensures Exits(chain, c, Returned(v)) == [Returning(ret, c.m, v), Note(after, c.m), TxCommit(c.m), TxRelease(c.m)]
  {
    var out := Returned(v);
    assert chain[2..][1..] == chain[3..] && chain[3..][1..] == chain[4..] && chain[4..][1..] == [];
    assert Exits(chain[4..], c, out) == [];
    assert Exits(chain[3..], c, out) == [Returning(ret, c.m, v)];
    assert Exits(chain[2..], c, out) == [Returning(ret, c.m, v), Note(after, c.m)];
    assert chain[1..][1..] == chain[2..];
    assert Exits(chain[1..], c, out) == [Returning(ret, c.m, v), Note(after, c.m)];
  }

  /** On an Exception: after-throwing, after, rollback and release. */
  lemma FiveExitsThrew(chain: seq<Advice>, c: Call, f: Fault, before: string, after: string, ret: string, ex: string)
    requires FiveKinds(chain, before, after, ret, ex) && IsException(f)
    ensures Exits(chain, c, Threw(f)) == [Throwing(ex, c.m, f), Note(after, c.m), TxRollback(c.m), TxRelease(c.m)]
  {
    var out := Threw(f);
    assert chain[2..][1..] == chain[3..] && chain[3..][1..] == chain[4..] && chain[4..][1..] == [];
    assert Exits(chain[4..], c, out) == [Throwing(ex, c.m, f)];
    assert Exits(chain[3..], c, out) == [Throwing(ex, c.m, f)];
    assert Exits(chain[2..], c, out) == [Throwing(ex, c.m, f), Note(after, c.m)];
    assert chain[1..][1..] == chain[2..];
    assert Exits(chain[1..], c, out) == [Throwing(ex, c.m, f), Note(after, c.m)];
  }

  /** The five kinds of advice around one call, in the order AspectV6Advice gets:
      around-start, before, the target; then after-returning or after-throwing, after,
      and the around advice's commit or rollback and release. The outcome is the
      target's. */
  lemma AllKinds(env: Env, chain: seq<Advice>, c: Call, body: Body, counter: Int32,
                 before: string, after: string, ret: string, ex: string)
    requires FiveKinds(chain, before, after, ret, ex)
    ensures var inner := Exec(env, c, body, counter);
            var r := RunChain(env, chain, c, body, counter);
            && r.out == inner.out && r.counter == inner.counter
            && (inner.out.Returned? ==>
                  r.events == [TxStart(c.m), Note(before, c.m)] + inner.events
                              + [Returning(ret, c.m, inner.out.value), Note(after, c.m), TxCommit(c.m), TxRelease(c.m)])
            && (inner.out.Threw? && IsException(inner.out.fault) ==>
                  r.events == [TxStart(c.m), Note(before, c.m)] + inner.events
                              + [Throwing(ex, c.m, inner.out.fault), Note(after, c.m), TxRollback(c.m), TxRelease(c.m)])
  {
    assert NoRetry(chain) by {
      assert forall i :: 0 <= i < 5 ==> !chain[i].kind.Around? || chain[i].kind.body == Transaction;
    }
    Nesting(env, chain, c, body, counter);
    var inner := Exec(env, c, body, counter);
    FiveEntries(chain, c, before, after, ret, ex);
    if inner.out.Returned? {
      FiveExitsReturned(chain, c, inner.out.value, before, after, ret, ex);
    } else if IsException(inner.out.fault) {
      FiveExitsThrew(chain, c, inner.out.fault, before, after, ret, ex);
    }
  }

  lemma V6Kinds()
    ensures FiveKinds(V6Chain, "[before]", "[after]", "[return]", "[ex]")
  {
  }

  /** AspectV6Advice on `orderItem`: all five advice methods run, nested as above. */
  lemma V6Trace(env: Env, itemId: string, body: Body, counter: Int32)
    requires env.registry == [AspectV6] && OwnMethod(env.w, OrderItem)
    ensures var c := ItemCall(itemId);
            var inner := Exec(env, c, body, counter);
            var r := Invoke(env, c, body, counter);
            && r.out == inner.out && r.counter == inner.counter
            && (inner.out.Returned? ==>
                  r.events == [TxStart(OrderItem), Note("[before]", OrderItem)] + inner.events
                              + [Returning("[return]", OrderItem, inner.out.value), Note("[after]", OrderItem),
                                 TxCommit(OrderItem), TxRelease(OrderItem)])
            && (inner.out.Threw? && IsException(inner.out.fault) ==>
                  r.events == [TxStart(OrderItem), Note("[before]", OrderItem)] + inner.events
                              + [Throwing("[ex]", OrderItem, inner.out.fault), Note("[after]", OrderItem),
                                 TxRollback(OrderItem), TxRelease(OrderItem)])
  {
    var c := ItemCall(itemId);
    V6ItemChain(env.w, env.registry, itemId);
    V6Kinds();
    AllKinds(env, V6Chain, c, body, counter, "[before]", "[after]", "[return]", "[ex]");
  }
}
