/** Running a call through a proxy: each advice of the chain wraps the next one, the
    innermost wraps the target method, and every step appends events to a log.

    The static counter of `ExamRepository` is the only mutable state; it is threaded
    through every call. A target method body is a small datatype, so a method that calls
    another method (through `this` or through a proxy) recurses on a smaller body. */
module Interception {
  import opened JavaInt
  import opened Outcomes
  import opened Types
  import opened Pointcut
  import opened Chain
  import Exam

  /** Log lines, kept abstract: which advice wrote what about which method. */
  datatype Event =
    | Note(tag: string, m: Method)                          // "[log] <signature>" and the like
    | NoteArgs(tag: string, m: Method, args: seq<Value>)    // "[trace] <signature> args=..."
    | Returning(tag: string, m: Method, v: Value)           // "[return] <signature> return=..."
    | Throwing(tag: string, m: Method, f: Fault)            // "[ex] <signature> message=..."
    | TxStart(m: Method)
    | TxCommit(m: Method)
    | TxRollback(m: Method)
    | TxRelease(m: Method)
    | RetryStart(m: Method, max: int)                       // "[retry] <signature> retry=..."
    | RetryTry(m: Method, count: int, max: int)             // "[retry] try count=i/max"
    | Line(text: string)                                    // the target's own log line

  /** Through which reference a method calls another one. */
  datatype Route =
    | ViaThis              // `internal()`: the plain object, no proxy
    | ViaProxy(bean: Bean) // an injected reference: a proxy

  /** What a target method does. */
  datatype Body =
    | Fixed(lines: seq<string>, out: Outcome)
      // logs its lines and ends with `out`
    | CountedSave
      // `ExamRepository.save`
    | Delegate(lines: seq<string>, route: Route, callee: Method, calleeBody: Body)
      // a `void` method: logs its lines, then calls `callee` with its own arguments

  datatype Env = Env(w: World, registry: seq<Aspect>)

  /** How a call ends, the counter afterwards, and what it logged. */
  datatype Res = Res(out: Outcome, counter: Int32, events: seq<Event>)

  /** `throw exceptionHolder` with a null holder raises a fresh NullPointerException. */
  const NullHolder: Fault := Fault(NullPointer, -1)

  /** `@Retry`'s declared default. */
  const RetryDefault: int := 3

  /** The `value` of the retry annotation that binds the advice's parameter; the
      declared default when it is given without a value. */
  function RetryMax(m: Method, ann: TypeName): (r: int)
    ensures !HasAnnotation(m.annotations, ann) ==> r == RetryDefault
    ensures forall n :: FindAnnotation(m.annotations, ann) == Some(Annotation(ann, IntValue(n))) ==> r == n
    ensures FindAnnotation(m.annotations, ann) == Some(Annotation(ann, NoValue)) ==> r == RetryDefault
    ensures r != RetryDefault ==> Annotation(ann, IntValue(r)) in m.annotations
  {
    match FindAnnotation(m.annotations, ann)
    case Some(Annotation(_, IntValue(n))) => n
    case _ => RetryDefault
  }

  function Lines(ls: seq<string>): (r: seq<Event>)
    ensures |r| == |ls|
    ensures forall i :: 0 <= i < |ls| ==> r[i] == Line(ls[i])
    decreases |ls|
  {
    if |ls| == 0 then [] else [Line(ls[0])] + Lines(ls[1..])
  }

  /** What an advice logs on the way in. */
  function Entry(a: Advice, c: Call): seq<Event> {
    match a.kind
    case Around(LogAndProceed(tag)) => [Note(tag, c.m)]
    case Around(Transaction) => [TxStart(c.m)]
    case Around(RetryOnFailure(_)) => []
    case Before(tag, withArgs) => if withArgs then [NoteArgs(tag, c.m, c.args)] else [Note(tag, c.m)]
    case _ => []
  }

  /** What an advice logs on the way out, seeing how the inner call ended. */
  function Exit(a: Advice, c: Call, out: Outcome): seq<Event> {
    match a.kind
    case Around(Transaction) =>
      if out.Returned? then [TxCommit(c.m), TxRelease(c.m)]
      else if IsException(out.fault) then [TxRollback(c.m), TxRelease(c.m)]
      else [TxRelease(c.m)]
    case AfterReturning(tag) => if out.Returned? then [Returning(tag, c.m, out.value)] else []
    case AfterThrowing(tag) => if out.Threw? && IsException(out.fault) then [Throwing(tag, c.m, out.fault)] else []
    case After(tag) => [Note(tag, c.m)]
    case _ => []
  }

  predicate IsRetry(a: Advice) {
    a.kind.Around? && a.kind.body.RetryOnFailure?
  }

  /** The call `c` entering the chain at `chain[0]`. */
  function RunChain(env: Env, chain: seq<Advice>, c: Call, body: Body, counter: Int32): Res
    decreases body, |chain|, 1, 0
  {
    if |chain| == 0 then Exec(env, c, body, counter)
    else if IsRetry(chain[0]) then
      var max := RetryMax(c.m, chain[0].kind.body.ann);
      var r := RetryLoop(env, chain[1..], c, body, counter, 1, max, None);
      Res(r.out, r.counter, [RetryStart(c.m, max)] + r.events)
    else
      var r := RunChain(env, chain[1..], c, body, counter);
      Res(r.out, r.counter, Entry(chain[0], c) + r.events + Exit(chain[0], c, r.out))
  }

  /** Attempts `attempt..max` of the retry advice; `held` is the last caught Exception. */
  function RetryLoop(env: Env, rest: seq<Advice>, c: Call, body: Body, counter: Int32,
                     attempt: int, max: int, held: Option<Fault>): Res
    requires 1 <= attempt
    decreases body, |rest| + 1, 0, if attempt <= max then max - attempt + 1 else 0
  {
    if attempt > max then
      Res(Threw(if held.Some? then held.value else NullHolder), counter, [])
    else
      var r := RunChain(env, rest, c, body, counter);
      var events := [RetryTry(c.m, attempt, max)] + r.events;
      if r.out.Returned? || !IsException(r.out.fault) then Res(r.out, r.counter, events)
      else
        var more := RetryLoop(env, rest, c, body, r.counter, attempt + 1, max, Some(r.out.fault));
        Res(more.out, more.counter, events + more.events)
  }

  /** The target method itself. */
  function Exec(env: Env, c: Call, body: Body, counter: Int32): Res
    decreases body, 0, 0, 0
  {
    match body
    case Fixed(lines, out) => Res(out, counter, Lines(lines))
    case CountedSave =>
      var s := Exam.Save(counter);
      Res(s.outcome, s.counter, [])
    case Delegate(lines, route, callee, calleeBody) =>
      var inner :=
        match route
        case ViaThis => Exec(env, Call(c.bean, callee, c.args), calleeBody, counter)
        case ViaProxy(b) =>
          var nested := Call(b, callee, c.args);
          RunChain(env, ChainFor(env.w, env.registry, nested), nested, calleeBody, counter);
      Res(if inner.out.Returned? then Returned(Void) else inner.out, inner.counter, Lines(lines) + inner.events)
  }

  /** A call from outside through the bean's proxy. */
  function Invoke(env: Env, c: Call, body: Body, counter: Int32): Res {
    RunChain(env, ChainFor(env.w, env.registry, c), c, body, counter)
  }
}
