/** Laws of the advice chain: nesting, the self-call bypass, and the retry loop. */
module InterceptionLaws {
  import opened JavaInt
  import opened Outcomes
  import opened Types
  import opened Chain
  import opened Interception
  import Exam

  // ---------------------------------------------------------------- nesting

  /** Entry logs of a chain, outermost first. */
  function Entries(chain: seq<Advice>, c: Call): seq<Event>
    decreases |chain|
  {
    if |chain| == 0 then [] else Entry(chain[0], c) + Entries(chain[1..], c)
  }

  /** Exit logs of a chain, innermost first. */
  function Exits(chain: seq<Advice>, c: Call, out: Outcome): seq<Event>
    decreases |chain|
  {
    if |chain| == 0 then [] else Exits(chain[1..], c, out) + Exit(chain[0], c, out)
  }

  predicate NoRetry(chain: seq<Advice>) {
    forall i :: 0 <= i < |chain| ==> !IsRetry(chain[i])
  }

  /** Without a retry advice, the chain is a stack of wrappers around the target: it
      ends exactly as the target does, leaves the counter as the target does, and logs
      every entry outermost first, then the target, then every exit innermost first. */
  lemma {:induction false} Nesting(env: Env, chain: seq<Advice>, c: Call, body: Body, counter: Int32)
    requires NoRetry(chain)
    ensures var inner := Exec(env, c, body, counter);
            RunChain(env, chain, c, body, counter)
              == Res(inner.out, inner.counter, Entries(chain, c) + inner.events + Exits(chain, c, inner.out))
    decreases |chain|
  {
    if |chain| > 0 {
      var a := chain[0];
      assert !IsRetry(a);
      assert NoRetry(chain[1..]) by {
        forall i | 0 <= i < |chain[1..]| ensures !IsRetry(chain[1..][i]) { assert chain[1..][i] == chain[i + 1]; }
      }
      Nesting(env, chain[1..], c, body, counter);
      var inner := Exec(env, c, body, counter);
      var r := RunChain(env, chain[1..], c, body, counter);
      assert RunChain(env, chain, c, body, counter) == Res(r.out, r.counter, Entry(a, c) + r.events + Exit(a, c, r.out));
      Regroup(Entry(a, c), Entries(chain[1..], c), inner.events, Exits(chain[1..], c, inner.out), Exit(a, c, inner.out));
    }
  }

  lemma Regroup<T>(a: seq<T>, b: seq<T>, m: seq<T>, d: seq<T>, e: seq<T>)
    ensures a + (b + m + d) + e == (a + b) + m + (d + e)
  {
  }

  /** Two wrappers: the first is entered first and left last. */
  lemma TwoWrappers(x: Advice, y: Advice, c: Call, out: Outcome)
    ensures Entries([x, y], c) == Entry(x, c) + Entry(y, c)
    ensures Exits([x, y], c, out) == Exit(y, c, out) + Exit(x, c, out)
  {
    assert [x, y][1..] == [y];
    assert Entries([y], c) == Entry(y, c) + Entries([], c);
    assert Exits([y], c, out) == Exits([], c, out) + Exit(y, c, out);
    assert Entry(y, c) + [] == Entry(y, c);
    assert [] + Exit(y, c, out) == Exit(y, c, out);
  }

  /** Splitting a chain into an outer and an inner part: the outer part is entered
      first and left last. */
  lemma {:induction false} OuterFirstLastOut(outer: seq<Advice>, inner: seq<Advice>, c: Call, out: Outcome)
    ensures Entries(outer + inner, c) == Entries(outer, c) + Entries(inner, c)
    ensures Exits(outer + inner, c, out) == Exits(inner, c, out) + Exits(outer, c, out)
    decreases |outer|
  {
    if |outer| > 0 {
      assert (outer + inner)[1..] == outer[1..] + inner;
      OuterFirstLastOut(outer[1..], inner, c, out);
    } else {
      assert outer + inner == inner;
    }
  }

  /** A logging around advice alone: one note, then the target, whose outcome it
      returns. */
  lemma LogAlone(env: Env, x: Advice, c: Call, body: Body, counter: Int32, tag: string)
    requires x.kind == Around(LogAndProceed(tag))
    ensures var inner := Exec(env, c, body, counter);
            RunChain(env, [x], c, body, counter) == Res(inner.out, inner.counter, [Note(tag, c.m)] + inner.events)
  {
    assert [x][1..] == [];
    var inner := Exec(env, c, body, counter);
    assert [Note(tag, c.m)] + inner.events + [] == [Note(tag, c.m)] + inner.events;
  }

  // ---------------------------------------------------------------- self-invocation

  /** A body none of whose nested calls goes through a proxy. */
  predicate Unproxied(body: Body) {
    match body
    case Delegate(_, route, _, calleeBody) => route.ViaThis? && Unproxied(calleeBody)
    case _ => true
  }

  /** Calls on `this` never reach a proxy: such a body runs exactly as it would with no
      aspect registered at all. */
  lemma {:induction false} SelfCallsUnadvised(env: Env, c: Call, body: Body, counter: Int32)
    requires Unproxied(body)
    ensures Exec(env, c, body, counter) == Exec(Env(env.w, []), c, body, counter)
    decreases body
  {
    match body
    case Delegate(_, _, callee, calleeBody) =>
      SelfCallsUnadvised(env, Call(c.bean, callee, c.args), calleeBody, counter);
    case _ =>
  }

  /** The nested call through a proxy: the callee's chain, then the callee. */
  function ProxiedInner(env: Env, c: Call, b: Bean, callee: Method, calleeBody: Body, counter: Int32): Res {
    var nested := Call(b, callee, c.args);
    RunChain(env, ChainFor(env.w, env.registry, nested), nested, calleeBody, counter)
  }

  /** A delegating method that calls through a proxy logs its lines and then whatever
      the callee's chain and the callee log; it returns normally exactly when the callee
      did and otherwise rethrows what the callee threw. */
  lemma ProxiedCallOutcome(env: Env, c: Call, lines: seq<string>, b: Bean, callee: Method, calleeBody: Body, counter: Int32)
    ensures var inner := ProxiedInner(env, c, b, callee, calleeBody, counter);
            var r := Exec(env, c, Delegate(lines, ViaProxy(b), callee, calleeBody), counter);
            && r.counter == inner.counter
            && r.events == Lines(lines) + inner.events
            && (inner.out.Returned? <==> r.out == Returned(Void))
            && (inner.out.Threw? ==> r.out == inner.out)
  {
  }

  /** Advice on the nested call: the callee's own chain wraps the callee. */
  lemma ProxiedCallAdvised(env: Env, c: Call, b: Bean, callee: Method, calleeBody: Body, counter: Int32)
    requires NoRetry(ChainFor(env.w, env.registry, Call(b, callee, c.args)))
    ensures var nested := Call(b, callee, c.args);
            var chain := ChainFor(env.w, env.registry, nested);
            var inner := Exec(env, nested, calleeBody, counter);
            ProxiedInner(env, c, b, callee, calleeBody, counter)
              == Res(inner.out, inner.counter, Entries(chain, nested) + inner.events + Exits(chain, nested, inner.out))
  {
    var nested := Call(b, callee, c.args);
    Nesting(env, ChainFor(env.w, env.registry, nested), nested, calleeBody, counter);
  }

  // ---------------------------------------------------------------- retry

  /** The bound the retry advice reads is the `value` of the retry annotation on the
      method, wherever that annotation sits among the others, and `@Retry`'s default
      when it is written without a value. */
  lemma RetryMaxIsDeclaredValue(m: Method, ann: TypeName, pre: seq<Annotation>, v: AttrValue, post: seq<Annotation>)
    requires m.annotations == pre + [Annotation(ann, v)] + post
    requires forall i :: 0 <= i < |pre| ==> pre[i].kind != ann
    ensures v.IntValue? ==> RetryMax(m, ann) == v.i
    ensures v.NoValue? ==> RetryMax(m, ann) == RetryDefault
  {
    FindFirst(pre, Annotation(ann, v), post);
  }

  /** The retry advice as a loop: one `proceed` per iteration, the first success returned
      at once, each caught Exception stored over the previous one, an Error let through,
      and the stored exception (or a NullPointerException if none) thrown at the end. */
  method DoRetry(env: Env, rest: seq<Advice>, c: Call, body: Body, counter: Int32, max: int)
    returns (res: Res, proceeds: nat, last: Option<Outcome>)
    ensures res == RetryLoop(env, rest, c, body, counter, 1, max, None)
    ensures max < 1 ==> proceeds == 0 && res == Res(Threw(NullHolder), counter, [])
    ensures max >= 1 ==> 1 <= proceeds <= max && last == Some(res.out)
    ensures max >= 1 && res.out.Threw? && IsException(res.out.fault) ==> proceeds == max
  {
    var held: Option<Fault> := None;
    var cur := counter;
    var acc: seq<Event> := [];
    var attempt := 1;
    proceeds := 0;
    last := None;
    while attempt <= max
      invariant 1 <= attempt
      invariant max >= 1 ==> attempt <= max + 1
      invariant max < 1 ==> attempt == 1
      invariant proceeds == attempt - 1
      invariant attempt == 1 <==> held.None?
      invariant attempt == 1 ==> last.None? && cur == counter && acc == []
      invariant held.Some? ==> last == Some(Threw(held.value)) && IsException(held.value)
      invariant var r := RetryLoop(env, rest, c, body, cur, attempt, max, held);
                RetryLoop(env, rest, c, body, counter, 1, max, None) == Res(r.out, r.counter, acc + r.events)
      decreases max - attempt + 1
    {
      var r := RunChain(env, rest, c, body, cur);
      var step := [RetryTry(c.m, attempt, max)] + r.events;
      proceeds := proceeds + 1;
      last := Some(r.out);
      if r.out.Returned? || !IsException(r.out.fault) {
        res := Res(r.out, r.counter, acc + step);
        return;
      }
      var more := RetryLoop(env, rest, c, body, r.counter, attempt + 1, max, Some(r.out.fault));
      assert acc + (step + more.events) == (acc + step) + more.events;
      acc := acc + step;
      held := Some(r.out.fault);
      cur := r.counter;
      attempt := attempt + 1;
    }
    res := Res(Threw(if held.Some? then held.value else NullHolder), cur, acc);
    assert acc + [] == acc;
  }

  /** Only `Exception` is caught: an Error from an attempt ends the loop at once, with
      that Error and no further attempt. */
  lemma RetryLetsErrorsThrough(env: Env, rest: seq<Advice>, c: Call, body: Body, counter: Int32,
                               attempt: int, max: int, held: Option<Fault>)
    requires 1 <= attempt <= max
    requires var r := RunChain(env, rest, c, body, counter); r.out.Threw? && !IsException(r.out.fault)
    ensures var r := RunChain(env, rest, c, body, counter);
            RetryLoop(env, rest, c, body, counter, attempt, max, held)
            == Res(r.out, r.counter, [RetryTry(c.m, attempt, max)] + r.events)
  {
  }

  /** How the retry advice over `save` ends from counter value `counter` under the bound
      `max`: with no bound left it throws the null holder without running `save`; the
      first success is returned; one failure surfaces under a bound of 1 and is retried
      away under any bound of at least 2. */
  predicate RetriedSaveEnds(out: Outcome, after: Int32, counter: Int32, max: int) {
    var first := Exam.Save(counter);
    && (max < 1 ==> out == Threw(NullHolder) && after == counter)
    && (max >= 1 && first.outcome.Returned? ==> out == first.outcome && after == first.counter)
    && (max == 1 && first.outcome.Threw? ==> out == first.outcome && after == first.counter)
    && (max >= 2 && first.outcome.Threw? ==>
          out == Returned(Str("ok")) && after == Exam.Save(first.counter).counter)
  }

  lemma RetriedSave(env: Env, rest: seq<Advice>, c: Call, counter: Int32, max: int)
    requires NoRetry(rest)
    ensures var r := RetryLoop(env, rest, c, CountedSave, counter, 1, max, None);
            RetriedSaveEnds(r.out, r.counter, counter, max)
  {
    var first := Exam.Save(counter);
    if max >= 1 {
      Nesting(env, rest, c, CountedSave, counter);
      if first.outcome.Threw? {
        Nesting(env, rest, c, CountedSave, first.counter);
        Exam.NoTwoFailuresInARow(counter);
      }
    }
  }
}
