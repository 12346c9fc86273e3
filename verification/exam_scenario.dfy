/** The `hello.aop.exam` example: `ExamService.request` calls `ExamRepository.save`
    through the repository's proxy; TraceAspect logs both calls with their arguments and
    RetryAspect retries `save`. Both aspects have the lowest precedence, so they nest in
    registration order, which the application does not fix: every lemma here holds for
    both orders. */
module ExamScenario {
  import opened JavaInt
  import opened Outcomes
  import opened Types
  import opened Pointcut
  import opened Proxy
  import opened Chain
  import opened Interception
  import opened InterceptionLaws
  import opened Fixtures
  import opened Aspects
  import Exam

  // ---------------------------------------------------------------- beans and calls

  /** Neither exam class implements an interface: both get subclass proxies. */
  const ServiceBean: Bean := Bean(ExamService, SubclassBased)
  const RepositoryBean: Bean := Bean(ExamRepository, SubclassBased)

  /** `request(itemId)`: `examRepository.save(itemId)` through the injected proxy, where
      `save` is the repository method with its annotations. */
  function RequestBody(save: Method): Body {
    Delegate([], ViaProxy(RepositoryBean), save, CountedSave)
  }

  function RequestCall(itemId: string): Call { Call(ServiceBean, ExamRequest, [Str(itemId)]) }

  function SaveCall(save: Method, itemId: string): Call { Call(RepositoryBean, save, [Str(itemId)]) }

  /** The two aspects the exam test registers, in either order. */
  predicate ExamRegistry(registry: seq<Aspect>) {
    registry == [TraceAspect, RetryAspect] || registry == [RetryAspect, TraceAspect]
  }

  /** The one advice of a single-advice aspect, as it sits in a chain. */
  function Only(a: Aspect): Advice
    requires |a.advices| == 1
  {
    Advice(a.name, a.order, a.advices[0].kind, a.advices[0].selector)
  }

  /** A `save` carrying both exam annotations. */
  predicate Annotated(save: Method) {
    HasAnnotation(save.annotations, TraceAnn) && HasAnnotation(save.annotations, RetryAnn)
  }

  // ---------------------------------------------------------------- chains

  /** Equal precedence: the registration order is the nesting order. */
  lemma ExamLayers(registry: seq<Aspect>)
    requires ExamRegistry(registry)
    ensures Layers(Outermost(registry)) == [Only(registry[0]), Only(registry[1])]
  {
    TiedAspects(registry[0], registry[1]);
    assert registry == [registry[0], registry[1]];
    TwoLayers(registry[0], registry[1]);
    SingleAdviceLayer(registry[0]);
    SingleAdviceLayer(registry[1]);
  }

  /** TraceAspect selects exactly the methods annotated `@Trace`. */
  lemma TraceSelects(w: World, c: Call)
    ensures Applies(w, Only(TraceAspect), c) <==> HasAnnotation(c.m.annotations, TraceAnn)
  {
  }

  /** RetryAspect selects exactly the methods annotated `@Retry`. */
  lemma RetrySelects(w: World, c: Call)
    ensures Applies(w, Only(RetryAspect), c) <==> HasAnnotation(c.m.annotations, RetryAnn)
  {
  }

  lemma RequestAnnotations()
    ensures HasAnnotation(ExamRequest.annotations, TraceAnn)
    ensures !HasAnnotation(ExamRequest.annotations, RetryAnn)
  {
    assert ExamRequest.annotations[0].kind == TraceAnn;
    assert TraceAnn.simple[0] != RetryAnn.simple[0];
  }

  /** `request` carries `@Trace` but not `@Retry`: only the trace advice runs. */
  lemma RequestChain(w: World, registry: seq<Aspect>, itemId: string)
    requires ExamRegistry(registry)
    ensures ChainFor(w, registry, RequestCall(itemId)) == [Only(TraceAspect)]
  {
    ExamLayers(registry);
    var c := RequestCall(itemId);
    RequestAnnotations();
    TraceSelects(w, c);
    RetrySelects(w, c);
    ApplicableTwo(w, Only(registry[0]), Only(registry[1]), c);
  }

  /** An annotated `save` is selected by both advices, so its chain is the whole
      registry in registration order. */
  lemma SaveChain(w: World, registry: seq<Aspect>, save: Method, itemId: string)
    requires ExamRegistry(registry) && Annotated(save)
    ensures ChainFor(w, registry, SaveCall(save, itemId)) == [Only(registry[0]), Only(registry[1])]
  {
    ExamLayers(registry);
    var c := SaveCall(save, itemId);
    BothSelect(w, registry, c);
    ChainOfTwo(w, registry, Only(registry[0]), Only(registry[1]), c);
  }

  lemma ChainOfTwo(w: World, registry: seq<Aspect>, x: Advice, y: Advice, c: Call)
    requires Layers(Outermost(registry)) == [x, y] && Applies(w, x, c) && Applies(w, y, c)
    ensures ChainFor(w, registry, c) == [x, y]
  {
    ApplicableTwo(w, x, y, c);
  }

  lemma BothSelect(w: World, registry: seq<Aspect>, c: Call)
    requires ExamRegistry(registry) && Annotated(c.m)
    ensures Applies(w, Only(registry[0]), c) && Applies(w, Only(registry[1]), c)
  {
    TraceSelects(w, c);
    RetrySelects(w, c);
  }

  // ---------------------------------------------------------------- one call of save

  /** A plain advice outside a retry advice: the retry loop runs the bare target. */
  lemma PlainOutsideRetry(env: Env, x: Advice, y: Advice, c: Call, body: Body, counter: Int32)
    requires !IsRetry(x) && IsRetry(y)
    ensures var r := RunChain(env, [x, y], c, body, counter);
            var l := RetryLoop(env, [], c, body, counter, 1, RetryMax(c.m, y.kind.body.ann), None);
            r.out == l.out && r.counter == l.counter
  {
    assert [x, y][1..] == [y];
    assert [y][1..] == [];
  }

  /** A retry advice outside a plain advice: every attempt runs the plain advice. */
  lemma RetryOutsidePlain(env: Env, x: Advice, y: Advice, c: Call, body: Body, counter: Int32)
    requires IsRetry(x) && !IsRetry(y)
    ensures var r := RunChain(env, [x, y], c, body, counter);
            var l := RetryLoop(env, [y], c, body, counter, 1, RetryMax(c.m, x.kind.body.ann), None);
            r.out == l.out && r.counter == l.counter
  {
    assert [x, y][1..] == [y];
  }

  /** The retry bound of `@Retry(value = n)` is `n`; without a value it is the declared
      default 3. */
  lemma RetryBound(v: AttrValue)
    ensures v.IntValue? ==> RetryMax(ExamSaveWith(v), RetryAnn) == v.i
    ensures v.NoValue? ==> RetryMax(ExamSaveWith(v), RetryAnn) == RetryDefault
  {
    var anns := ExamSaveWith(v).annotations;
    assert anns[0].kind != RetryAnn && anns[1].kind == RetryAnn;
    assert FindAnnotation(anns, RetryAnn) == Some(anns[1]);
  }

  /** The proxied `save` ends as the retry advice over `save` does, whichever advice is
      outer. */
  lemma ProxiedSave(env: Env, save: Method, itemId: string, counter: Int32)
    requires ExamRegistry(env.registry) && Annotated(save)
    ensures var c := SaveCall(save, itemId);
            var r := RunChain(env, ChainFor(env.w, env.registry, c), c, CountedSave, counter);
            RetriedSaveEnds(r.out, r.counter, counter, RetryMax(save, RetryAnn))
  {
    SaveChain(env.w, env.registry, save, itemId);
    if env.registry[0] == TraceAspect {
      TraceOutside(env, save, itemId, counter);
    } else {
      RetryOutside(env, save, itemId, counter);
    }
  }

  lemma TraceOutside(env: Env, save: Method, itemId: string, counter: Int32)
    ensures var c := SaveCall(save, itemId);
            var r := RunChain(env, [Only(TraceAspect), Only(RetryAspect)], c, CountedSave, counter);
            RetriedSaveEnds(r.out, r.counter, counter, RetryMax(save, RetryAnn))
  {
    var c := SaveCall(save, itemId);
    PlainOutsideRetry(env, Only(TraceAspect), Only(RetryAspect), c, CountedSave, counter);
    assert NoRetry([]);
    RetriedSave(env, [], c, counter, RetryMax(save, RetryAnn));
  }

  lemma RetryOutside(env: Env, save: Method, itemId: string, counter: Int32)
    ensures var c := SaveCall(save, itemId);
            var r := RunChain(env, [Only(RetryAspect), Only(TraceAspect)], c, CountedSave, counter);
            RetriedSaveEnds(r.out, r.counter, counter, RetryMax(save, RetryAnn))
  {
    var c := SaveCall(save, itemId);
    RetryOutsidePlain(env, Only(RetryAspect), Only(TraceAspect), c, CountedSave, counter);
    assert NoRetry([Only(TraceAspect)]);
    RetriedSave(env, [Only(TraceAspect)], c, counter, RetryMax(save, RetryAnn));
  }

  // ---------------------------------------------------------------- one request

  /** One `request`: the trace advice logs the call with its argument first; then the
      proxied `save` runs; `request` returns normally exactly when `save` did, and
      otherwise rethrows what `save` threw. The counter is what `save` left. */
  lemma RequestStep(env: Env, save: Method, itemId: string, counter: Int32)
    requires ExamRegistry(env.registry) && Annotated(save)
    ensures var r := Invoke(env, RequestCall(itemId), RequestBody(save), counter);
            var c := SaveCall(save, itemId);
            var s := RunChain(env, ChainFor(env.w, env.registry, c), c, CountedSave, counter);
            && r.counter == s.counter
            && (s.out.Returned? <==> r.out == Returned(Void))
            && (s.out.Threw? ==> r.out == s.out)
            && r.events == [NoteArgs("[trace]", ExamRequest, [Str(itemId)])] + s.events
  {
    RequestChain(env.w, env.registry, itemId);
    TracedProxyCall(env, RequestCall(itemId), Only(TraceAspect), RepositoryBean, save, CountedSave, counter);
  }

  /** A delegating method wrapped by one argument-logging before advice, calling
      through a proxy. */
  lemma TracedProxyCall(env: Env, c: Call, x: Advice, b: Bean, callee: Method, calleeBody: Body, counter: Int32)
    requires ChainFor(env.w, env.registry, c) == [x] && x.kind.Before? && x.kind.withArgs
    ensures var r := Invoke(env, c, Delegate([], ViaProxy(b), callee, calleeBody), counter);
            var s := ProxiedInner(env, c, b, callee, calleeBody, counter);
            && r.counter == s.counter
            && (s.out.Returned? <==> r.out == Returned(Void))
            && (s.out.Threw? ==> r.out == s.out)
            && r.events == [NoteArgs(x.kind.tag, c.m, c.args)] + s.events
  {
    ArgumentTrace(env, x, c, Delegate([], ViaProxy(b), callee, calleeBody), counter);
    ProxiedCallOutcome(env, c, [], b, callee, calleeBody, counter);
    assert Lines([]) == [];
  }

  /** A before advice that logs the arguments, alone around a target. */
  lemma ArgumentTrace(env: Env, x: Advice, c: Call, body: Body, counter: Int32)
    requires x.kind.Before? && x.kind.withArgs
    ensures var inner := Exec(env, c, body, counter);
            RunChain(env, [x], c, body, counter)
              == Res(inner.out, inner.counter, [NoteArgs(x.kind.tag, c.m, c.args)] + inner.events)
  {
    assert [x][1..] == [];
    var inner := Exec(env, c, body, counter);
    assert [NoteArgs(x.kind.tag, c.m, c.args)] + inner.events + [] == [NoteArgs(x.kind.tag, c.m, c.args)] + inner.events;
  }

  /** The counter after one request under a retry bound of at least 2. */
  function Next(counter: Int32): Int32 {
    var first := Exam.Save(counter);
    if first.outcome.Returned? then first.counter else Exam.Save(first.counter).counter
  }

  /** A request under a retry bound of at least 2 always returns normally, and runs
      `save` once, or twice when the first run fails. */
  lemma RequestSucceeds(env: Env, save: Method, itemId: string, counter: Int32)
    requires ExamRegistry(env.registry) && Annotated(save) && RetryMax(save, RetryAnn) >= 2
    ensures var r := Invoke(env, RequestCall(itemId), RequestBody(save), counter);
            r.out == Returned(Void) && r.counter == Next(counter)
  {
    RequestStep(env, save, itemId, counter);
    ProxiedSave(env, save, itemId, counter);
  }

  /** Under a retry bound of 1 a request fails exactly when its one run of `save` does,
      with `save`'s IllegalStateException. */
  lemma RequestUnretried(env: Env, save: Method, itemId: string, counter: Int32)
    requires ExamRegistry(env.registry) && Annotated(save) && RetryMax(save, RetryAnn) == 1
    ensures var r := Invoke(env, RequestCall(itemId), RequestBody(save), counter);
            var first := Exam.Save(counter);
            && r.counter == first.counter
            && (first.outcome.Returned? <==> r.out == Returned(Void))
            && (first.outcome.Threw? ==> r.out == first.outcome)
  {
    RequestStep(env, save, itemId, counter);
    ProxiedSave(env, save, itemId, counter);
  }

  // ---------------------------------------------------------------- the exam test

  /** How a run of requests ended: one outcome per request, and the counter after. */
  datatype Run = Run(outs: seq<Outcome>, counter: Int32)

  /** The requests for `ids`, one after the other, from counter value `counter`. */
  function Requests(env: Env, save: Method, ids: seq<string>, counter: Int32): (r: Run)
    ensures |r.outs| == |ids|
    decreases |ids|
  {
    if |ids| == 0 then Run([], counter)
    else
      var first := Invoke(env, RequestCall(ids[0]), RequestBody(save), counter);
      var rest := Requests(env, save, ids[1..], first.counter);
      Run([first.out] + rest.outs, rest.counter)
  }

  /** The counter after `n` such requests. */
  function Advance(counter: Int32, n: nat): Int32
    decreases n
  {
    if n == 0 then counter else Advance(Next(counter), n - 1)
  }

  /** Under a retry bound of at least 2, every request of every run returns normally. */
  lemma {:induction false} RequestsSucceed(env: Env, save: Method, ids: seq<string>, counter: Int32)
    requires ExamRegistry(env.registry) && Annotated(save) && RetryMax(save, RetryAnn) >= 2
    ensures AllReturned(Requests(env, save, ids, counter).outs)
    decreases |ids|
  {
    if |ids| > 0 {
      RequestSucceeds(env, save, ids[0], counter);
      RequestsSucceed(env, save, ids[1..], Next(counter));
      var r := Requests(env, save, ids, counter);
      var rest := Requests(env, save, ids[1..], Next(counter));
      assert r.outs == [Returned(Void)] + rest.outs;
      AllReturnedCons(rest.outs);
    }
  }

  /** Every request of the run returned normally. */
  predicate AllReturned(outs: seq<Outcome>) {
    forall i :: 0 <= i < |outs| ==> outs[i] == Returned(Void)
  }

  lemma AllReturnedCons(outs: seq<Outcome>)
    requires AllReturned(outs)
    ensures AllReturned([Returned(Void)] + outs)
  {
  }

  /** ... and the counter moves as `Advance` says. */
  lemma {:induction false} RequestsCounter(env: Env, save: Method, ids: seq<string>, counter: Int32)
    requires ExamRegistry(env.registry) && Annotated(save) && RetryMax(save, RetryAnn) >= 2
    ensures Requests(env, save, ids, counter).counter == Advance(counter, |ids|)
    decreases |ids|
  {
    if |ids| > 0 {
      RequestSucceeds(env, save, ids[0], counter);
      RequestsCounter(env, save, ids[1..], Next(counter));
    }
  }

  /** `ExamRepository.save` as declared carries both annotations and a bound of 4. */
  lemma ExamSaveAnnotated()
    ensures Annotated(ExamSave) && RetryMax(ExamSave, RetryAnn) == 4
  {
    RetryBound(IntValue(4));
    assert ExamSave.annotations[0].kind == TraceAnn && ExamSave.annotations[1].kind == RetryAnn;
  }

  /** From a fresh counter, five requests leave it at 6: the fifth `save` fails at 5 and
      its retry succeeds at 6. */
  lemma FiveRequestsCounter()
    ensures Advance(Exam.InitialSeq, 5) == 6
  {
    assert Next(0) == 1;
    assert Next(1) == 2;
    assert Next(2) == 3;
    assert Next(3) == 4;
    assert Exam.Save(4).outcome.Threw?;
    assert Next(4) == 6;
  }

  /** ExamTest: five requests from a fresh counter all return normally, because the
      fifth `save` fails once and `@Retry(value = 4)` retries it; `save` runs six times
      in all, so the counter ends at 6. */
  lemma ExamTestRun(env: Env, ids: seq<string>)
    requires ExamRegistry(env.registry) && |ids| == 5
    ensures var r := Requests(env, ExamSave, ids, Exam.InitialSeq);
            && (forall i :: 0 <= i < 5 ==> r.outs[i] == Returned(Void))
            && r.counter == 6
  {
    ExamSaveAnnotated();
    RequestsSucceed(env, ExamSave, ids, Exam.InitialSeq);
    RequestsCounter(env, ExamSave, ids, Exam.InitialSeq);
    FiveRequestsCounter();
  }

  /** One request ends as one plain `save` from counter `k` does: same counter after,
      a normal return exactly when `save` returned, `save`'s exception otherwise. */
  predicate PlainStep(env: Env, save: Method, itemId: string, k: Int32) {
    var r := Invoke(env, RequestCall(itemId), RequestBody(save), k);
    var first := Exam.Save(k);
    && r.counter == first.counter
    && (first.outcome.Returned? <==> r.out == Returned(Void))
    && (first.outcome.Threw? ==> r.out == first.outcome)
  }

  /** When every request is a plain `save`, a run of requests is a run of plain `save`s. */
  lemma {:induction false} PlainRequests(env: Env, save: Method, ids: seq<string>, counter: Int32)
    requires forall id, k :: PlainStep(env, save, id, k)
    ensures var r := Requests(env, save, ids, counter);
            && r.counter == Exam.Repeat(counter, |ids|)
            && forall i :: 0 <= i < |ids| ==>
                 var s := Exam.Save(Exam.Repeat(counter, i));
                 (s.outcome.Returned? ==> r.outs[i] == Returned(Void)) && (s.outcome.Threw? ==> r.outs[i] == s.outcome)
    decreases |ids|
  {
    if |ids| > 0 {
      var next := Exam.Save(counter).counter;
      assert PlainStep(env, save, ids[0], counter);
      PlainRequests(env, save, ids[1..], next);
      var first := Invoke(env, RequestCall(ids[0]), RequestBody(save), counter);
      var rest := Requests(env, save, ids[1..], next);
      var r := Requests(env, save, ids, counter);
      assert r == Run([first.out] + rest.outs, rest.counter);
      forall i | 0 <= i < |ids|
        ensures var s := Exam.Save(Exam.Repeat(counter, i));
                (s.outcome.Returned? ==> r.outs[i] == Returned(Void)) && (s.outcome.Threw? ==> r.outs[i] == s.outcome)
      {
        if i > 0 {
          assert Exam.Repeat(counter, i) == Exam.Repeat(next, i - 1);
          assert r.outs[i] == rest.outs[i - 1];
        }
      }
    }
  }

  /** Under a bound of 1 a run of requests is a run of plain `save`s: request `i`
      returns normally exactly when the `i`-th `save` does, and otherwise throws what it
      threw. */
  lemma RequestsUnretried(env: Env, save: Method, ids: seq<string>, counter: Int32)
    requires ExamRegistry(env.registry) && Annotated(save) && RetryMax(save, RetryAnn) == 1
    ensures var r := Requests(env, save, ids, counter);
            && r.counter == Exam.Repeat(counter, |ids|)
            && forall i :: 0 <= i < |ids| ==>
                 var s := Exam.Save(Exam.Repeat(counter, i));
                 (s.outcome.Returned? ==> r.outs[i] == Returned(Void)) && (s.outcome.Threw? ==> r.outs[i] == s.outcome)
  {
    forall id, k ensures PlainStep(env, save, id, k) {
      RequestUnretried(env, save, id, k);
    }
    PlainRequests(env, save, ids, counter);
  }

  /** Without the retry (a bound of 1) the same five requests end differently: the
      fifth throws `save`'s IllegalStateException, raised at counter value 5. */
  lemma ExamTestUnretried(env: Env, ids: seq<string>)
    requires ExamRegistry(env.registry) && |ids| == 5
    ensures var r := Requests(env, ExamSaveWith(IntValue(1)), ids, Exam.InitialSeq);
            && (forall i :: 0 <= i < 4 ==> r.outs[i] == Returned(Void))
            && r.outs[4] == Threw(Fault(IllegalState, 5))
            && r.counter == 5
  {
    var save := ExamSaveWith(IntValue(1));
    RetryBound(IntValue(1));
    assert save.annotations[0].kind == TraceAnn && save.annotations[1].kind == RetryAnn;
    RequestsUnretried(env, save, ids, Exam.InitialSeq);
    FirstFiveSaves();
  }

  /** The first five `save`s from a fresh counter: four successes, then the failure at
      counter value 5. */
  lemma FirstFiveSaves()
    ensures forall i :: 0 <= i < 4 ==> Exam.Save(Exam.Repeat(Exam.InitialSeq, i)).outcome.Returned?
    ensures Exam.Save(Exam.Repeat(Exam.InitialSeq, 4)).outcome == Threw(Fault(IllegalState, 5))
    ensures Exam.Repeat(Exam.InitialSeq, 5) == 5
  {
    forall i | 0 <= i < 4
      ensures Exam.Save(Exam.Repeat(Exam.InitialSeq, i)).outcome.Returned?
    {
      Exam.FailsExactlyOnMultiplesOfFive(i);
    }
    Exam.ExecutionsCount(Exam.InitialSeq, 4);
    Exam.ExecutionsCount(Exam.InitialSeq, 5);
  }
}
