/** Which advice runs on a proxied call, and in what order.

    Aspects carry an `@Order` value (lower = outer); an aspect without one has the
    lowest precedence. Inside one aspect the advice kinds take the documented
    precedence Around, Before, After, AfterReturning, AfterThrowing. Ties (two aspects
    with the same order, two advices of the same kind in one aspect) are left in
    registration / declaration order: Spring gives no order for them. */
module Chain {
  import opened JavaInt
  import opened Outcomes
  import opened Types
  import opened Pointcut
  import opened Proxy

  // ---------------------------------------------------------------- stable insertion sort

  predicate SortedBy<T>(s: seq<T>, key: T -> int) {
    forall i, j :: 0 <= i < j < |s| ==> key(s[i]) <= key(s[j])
  }

  predicate HeadBound<T>(h: T, s: seq<T>, key: T -> int) {
    forall j :: 0 <= j < |s| ==> key(h) <= key(s[j])
  }

  /** Inserts `x` before the first element whose key is not smaller. */
  function Insert<T>(x: T, s: seq<T>, key: T -> int): seq<T>
    decreases |s|
  {
    if |s| == 0 then [x]
    else if key(x) <= key(s[0]) then [x] + s
    else [s[0]] + Insert(x, s[1..], key)
  }

  /** Sorts by `key`; elements with equal keys keep their relative order. */
  function SortBy<T>(s: seq<T>, key: T -> int): seq<T>
    decreases |s|
  {
    if |s| == 0 then [] else Insert(s[0], SortBy(s[1..], key), key)
  }

  lemma {:induction false} InsertPermutes<T>(x: T, s: seq<T>, key: T -> int)
    ensures multiset(Insert(x, s, key)) == multiset(s) + multiset{x}
    decreases |s|
  {
    if |s| > 0 && key(s[0]) < key(x) {
      InsertPermutes(x, s[1..], key);
      assert s == [s[0]] + s[1..];
    }
  }

  lemma {:induction false} InsertSorted<T>(x: T, s: seq<T>, key: T -> int)
    requires SortedBy(s, key)
    ensures SortedBy(Insert(x, s, key), key)
    decreases |s|
  {
    if |s| > 0 && key(s[0]) < key(x) {
      var tail := Insert(x, s[1..], key);
      InsertSorted(x, s[1..], key);
      InsertPermutes(x, s[1..], key);
      assert HeadBound(s[0], tail, key) by {
        forall j | 0 <= j < |tail|
          ensures key(s[0]) <= key(tail[j])
        {
          assert tail[j] in multiset(s[1..]) + multiset{x};
          if tail[j] != x {
            var k :| 0 <= k < |s[1..]| && s[1..][k] == tail[j];
            assert s[1..][k] == s[k + 1];
          }
        }
      }
    }
  }

  /** The result of `SortBy` is in key order. */
  lemma {:induction false} SortBySorted<T>(s: seq<T>, key: T -> int)
    ensures SortedBy(SortBy(s, key), key)
    decreases |s|
  {
    if |s| > 0 {
      SortBySorted(s[1..], key);
      InsertSorted(s[0], SortBy(s[1..], key), key);
    }
  }

  /** `SortBy` neither loses nor invents elements. */
  lemma {:induction false} SortByPermutes<T>(s: seq<T>, key: T -> int)
    ensures multiset(SortBy(s, key)) == multiset(s)
    decreases |s|
  {
    if |s| > 0 {
      SortByPermutes(s[1..], key);
      InsertPermutes(s[0], SortBy(s[1..], key), key);
      assert s == [s[0]] + s[1..];
    }
  }

  /** The elements of `s` whose key is `k`, in their order in `s`. */
  function WithKey<T>(s: seq<T>, key: T -> int, k: int): seq<T>
    decreases |s|
  {
    if |s| == 0 then [] else (if key(s[0]) == k then [s[0]] else []) + WithKey(s[1..], key, k)
  }

  lemma {:induction false} InsertWithKey<T>(x: T, s: seq<T>, key: T -> int, k: int)
    ensures WithKey(Insert(x, s, key), key, k)
            == (if key(x) == k then [x] else []) + WithKey(s, key, k)
    decreases |s|
  {
    if |s| > 0 && key(s[0]) < key(x) {
      var t := Insert(x, s[1..], key);
      InsertWithKey(x, s[1..], key, k);
      assert ([s[0]] + t)[1..] == t;
    } else if |s| > 0 {
      assert ([x] + s)[1..] == s;
    } else {
      assert [x][1..] == [];
    }
  }

  /** Sorting is stable: for every key, the elements with that key come out in the
      order they went in. */
  lemma {:induction false} SortByStable<T>(s: seq<T>, key: T -> int, k: int)
    ensures WithKey(SortBy(s, key), key, k) == WithKey(s, key, k)
    decreases |s|
  {
    if |s| > 0 {
      SortByStable(s[1..], key, k);
      InsertWithKey(s[0], SortBy(s[1..], key), key, k);
    }
  }

  /** Sorting is stable: a sequence whose keys are all equal comes out unchanged. */
  lemma {:induction false} SortByTies<T>(s: seq<T>, key: T -> int, k: int)
    requires forall i :: 0 <= i < |s| ==> key(s[i]) == k
    ensures SortBy(s, key) == s
    decreases |s|
  {
    if |s| > 0 {
      SortByTies(s[1..], key, k);
      assert s == [s[0]] + s[1..];
    }
  }

  // ---------------------------------------------------------------- advice and aspects

  /** What an around-advice does between entering and returning. */
  datatype AroundBody =
    | LogAndProceed(tag: string)       // log the signature, proceed once, return the result
    | Transaction                      // start; proceed; commit or roll back; release (finally)
    | RetryOnFailure(ann: TypeName)    // proceed up to the bound `@Retry` value times

  datatype Kind =
    | Around(body: AroundBody)
    | Before(tag: string, withArgs: bool)
    | AfterReturning(tag: string)
    | AfterThrowing(tag: string)
    | After(tag: string)

  /** Precedence of advice kinds inside one aspect (smaller runs outer). */
  function Rank(k: Kind): int {
    match k
    case Around(_) => 0
    case Before(_, _) => 1
    case After(_) => 2
    case AfterReturning(_) => 3
    case AfterThrowing(_) => 4
  }

  datatype AdviceDecl = AdviceDecl(kind: Kind, selector: Expr)

  /** An `@Aspect` bean: its `@Order` value and its advice methods in declaration order. */
  datatype Aspect = Aspect(name: string, order: int, advices: seq<AdviceDecl>)

  /** `Ordered.LOWEST_PRECEDENCE`, the order of an aspect without `@Order`. */
  const LowestPrecedence: int := MAX

  /** One advice as it sits in a proxy's chain. */
  datatype Advice = Advice(aspect: string, order: int, kind: Kind, selector: Expr)

  function DeclRank(d: AdviceDecl): int { Rank(d.kind) }

  function AspectOrder(a: Aspect): int { a.order }

  function AdviceOrder(a: Advice): int { a.order }

  /** An aspect's advice in kind precedence. */
  function Precedence(ds: seq<AdviceDecl>): (r: seq<AdviceDecl>)
    ensures SortedBy(r, DeclRank)
    ensures multiset(r) == multiset(ds)
  {
    SortBySorted(ds, DeclRank);
    SortByPermutes(ds, DeclRank);
    SortBy(ds, DeclRank)
  }

  /** The aspects from outermost to innermost. */
  function Outermost(aspects: seq<Aspect>): (r: seq<Aspect>)
    ensures SortedBy(r, AspectOrder)
    ensures multiset(r) == multiset(aspects)
  {
    SortBySorted(aspects, AspectOrder);
    SortByPermutes(aspects, AspectOrder);
    SortBy(aspects, AspectOrder)
  }

  function Layer(a: Aspect, ds: seq<AdviceDecl>): (r: seq<Advice>)
    ensures |r| == |ds|
    ensures forall i :: 0 <= i < |ds| ==> r[i] == Advice(a.name, a.order, ds[i].kind, ds[i].selector)
    decreases |ds|
  {
    if |ds| == 0 then [] else [Advice(a.name, a.order, ds[0].kind, ds[0].selector)] + Layer(a, ds[1..])
  }

  /** Every advice of the given aspects, aspect by aspect, each aspect in kind precedence. */
  function Layers(aspects: seq<Aspect>): seq<Advice>
    decreases |aspects|
  {
    if |aspects| == 0 then []
    else Layer(aspects[0], Precedence(aspects[0].advices)) + Layers(aspects[1..])
  }

  /** A descriptor of one advice of a registered aspect. */
  predicate Declared(registry: seq<Aspect>, x: Advice) {
    exists a, d :: a in registry && d in a.advices && x == Advice(a.name, a.order, d.kind, d.selector)
  }

  // ---------------------------------------------------------------- calls and applicability

  /** A bean: the class of the real object and the style of the proxy around it. */
  datatype Bean = Bean(cls: TypeName, kind: ProxyKind)

  /** A call of `m` on `bean` with the given argument values. */
  datatype Call = Call(bean: Bean, m: Method, args: seq<Value>)

  /** Runtime class of an argument value (`void` is never passed). */
  function RuntimeType(v: Value): TypeName {
    match v
    case Str(_) => StringType
    case Void => VoidType
  }

  function ArgTypes(args: seq<Value>): (r: seq<TypeName>)
    ensures |r| == |args|
    ensures forall i :: 0 <= i < |args| ==> r[i] == RuntimeType(args[i])
    decreases |args|
  {
    if |args| == 0 then [] else [RuntimeType(args[0])] + ArgTypes(args[1..])
  }

  /** The live invocation as the pointcut sees it: `this` is the proxy, `target` the
      real object. */
  function Context(w: World, c: Call): Ctx {
    Ctx(ThisView(w, c.bean.kind, c.bean.cls), c.bean.cls, ArgTypes(c.args))
  }

  predicate Applies(w: World, x: Advice, c: Call) {
    Eval(w, x.selector, c.m, Context(w, c))
  }

  function Applicable(w: World, chain: seq<Advice>, c: Call): (r: seq<Advice>)
    ensures forall x :: x in r <==> x in chain && Applies(w, x, c)
    decreases |chain|
  {
    if |chain| == 0 then []
    else (if Applies(w, chain[0], c) then [chain[0]] else []) + Applicable(w, chain[1..], c)
  }

  /** The advice chain a proxy runs for a call, outermost first. */
  function ChainFor(w: World, registry: seq<Aspect>, c: Call): seq<Advice> {
    Applicable(w, Layers(Outermost(registry)), c)
  }

  // ---------------------------------------------------------------- laws

  lemma {:induction false} LayersMembers(aspects: seq<Aspect>, x: Advice)
    ensures x in Layers(aspects) <==> Declared(aspects, x)
    decreases |aspects|
  {
    if |aspects| > 0 {
      LayersMembers(aspects[1..], x);
      var a := aspects[0];
      LayerMembers(a, x);
      assert aspects == [a] + aspects[1..];
      if Declared(aspects, x) {
        var b, d :| b in aspects && d in b.advices && x == Advice(b.name, b.order, d.kind, d.selector);
        if b != a {
          assert b in aspects[1..];
        }
      }
    }
  }

  /** One aspect's layer holds exactly the descriptors of its advice declarations. */
  lemma LayerMembers(a: Aspect, x: Advice)
    ensures x in Layer(a, Precedence(a.advices))
        <==> exists d :: d in a.advices && x == Advice(a.name, a.order, d.kind, d.selector)
  {
    var ds := Precedence(a.advices);
    var here := Layer(a, ds);
    if x in here {
      var i :| 0 <= i < |here| && here[i] == x;
      assert ds[i] in multiset(a.advices);
    }
    if exists d :: d in a.advices && x == Advice(a.name, a.order, d.kind, d.selector) {
      var d :| d in a.advices && x == Advice(a.name, a.order, d.kind, d.selector);
      assert d in multiset(ds);
      var i :| 0 <= i < |ds| && ds[i] == d;
      assert here[i] == x;
    }
  }

  /** The chain holds exactly the registered advice whose pointcut matches the call. */
  lemma ChainMembers(w: World, registry: seq<Aspect>, c: Call, x: Advice)
    ensures x in ChainFor(w, registry, c) <==> Declared(registry, x) && Applies(w, x, c)
  {
    var sorted := Outermost(registry);
    LayersMembers(sorted, x);
    forall a | true
      ensures a in sorted <==> a in registry
    {
      assert a in sorted <==> a in multiset(sorted);
    }
  }

  lemma {:induction false} LayersAbove(aspects: seq<Aspect>, lo: int)
    requires forall k :: 0 <= k < |aspects| ==> lo <= aspects[k].order
    ensures forall i :: 0 <= i < |Layers(aspects)| ==> lo <= Layers(aspects)[i].order
    decreases |aspects|
  {
    if |aspects| > 0 {
      LayersAbove(aspects[1..], lo);
    }
  }

  lemma {:induction false} LayersOrdered(aspects: seq<Aspect>)
    requires SortedBy(aspects, AspectOrder)
    ensures SortedBy(Layers(aspects), AdviceOrder)
    decreases |aspects|
  {
    if |aspects| > 0 {
      var a := aspects[0];
      LayersOrdered(aspects[1..]);
      LayersAbove(aspects[1..], a.order);
    }
  }

  lemma {:induction false} ApplicableKeepsOrder(w: World, chain: seq<Advice>, c: Call)
    requires SortedBy(chain, AdviceOrder)
    ensures SortedBy(Applicable(w, chain, c), AdviceOrder)
    decreases |chain|
  {
    if |chain| > 0 {
      ApplicableKeepsOrder(w, chain[1..], c);
      var rest := Applicable(w, chain[1..], c);
      forall j | 0 <= j < |rest|
        ensures chain[0].order <= rest[j].order
      {
        assert rest[j] in chain[1..];
      }
    }
  }

  /** A lower `@Order` value is entered earlier: along the chain, orders never decrease. */
  lemma ChainOrdered(w: World, registry: seq<Aspect>, c: Call)
    ensures SortedBy(ChainFor(w, registry, c), AdviceOrder)
  {
    LayersOrdered(Outermost(registry));
    ApplicableKeepsOrder(w, Layers(Outermost(registry)), c);
  }

  // ---------------------------------------------------------------- small chains

  /** Two aspects come out in `@Order` order, however they were registered. */
  lemma TwoAspects(a: Aspect, b: Aspect)
    requires a.order < b.order
    ensures Outermost([a, b]) == [a, b] && Outermost([b, a]) == [a, b]
  {
    assert [a, b][1..] == [b];
    assert [b, a][1..] == [a];
  }

  /** Two aspects of equal `@Order` stay in registration order. */
  lemma TiedAspects(a: Aspect, b: Aspect)
    requires a.order == b.order
    ensures Outermost([a, b]) == [a, b]
  {
    assert [a, b][1..] == [b];
  }

  /** The layers of two aspects: the first aspect's advice, then the second's. */
  lemma TwoLayers(a: Aspect, b: Aspect)
    ensures Layers([a, b]) == Layers([a]) + Layers([b])
  {
    assert [a, b][1..] == [b];
  }

  /** An aspect with a single advice method contributes exactly that advice. */
  lemma SingleAdviceLayer(a: Aspect)
    requires |a.advices| == 1
    ensures Layers([a]) == [Advice(a.name, a.order, a.advices[0].kind, a.advices[0].selector)]
  {
    assert a.advices[1..] == [];
    assert SortBy(a.advices, DeclRank) == Insert(a.advices[0], [], DeclRank);
    assert Precedence(a.advices) == a.advices;
  }

  /** Filtering a chain of one, two or four advices, advice by advice. */
  lemma ApplicableOne(w: World, x: Advice, c: Call)
    ensures Applicable(w, [x], c) == if Applies(w, x, c) then [x] else []
  {
    assert [x][1..] == [];
  }

  lemma ApplicableTwo(w: World, x: Advice, y: Advice, c: Call)
    ensures Applicable(w, [x, y], c)
         == (if Applies(w, x, c) then [x] else []) + (if Applies(w, y, c) then [y] else [])
  {
    assert [x, y][1..] == [y];
    assert Applicable(w, [y], c) == (if Applies(w, y, c) then [y] else []) + Applicable(w, [], c);
  }

  /** Filtering distributes over concatenation. */
  lemma {:induction false} ApplicableAppend(w: World, s: seq<Advice>, t: seq<Advice>, c: Call)
    ensures Applicable(w, s + t, c) == Applicable(w, s, c) + Applicable(w, t, c)
    decreases |s|
  {
    if |s| > 0 {
      var head := if Applies(w, s[0], c) then [s[0]] else [];
      assert (s + t)[0] == s[0] && (s + t)[1..] == s[1..] + t;
      ApplicableAppend(w, s[1..], t, c);
      assert Applicable(w, s + t, c) == head + (Applicable(w, s[1..], c) + Applicable(w, t, c));
    } else {
      assert s + t == t;
    }
  }

  lemma ApplicableFour(w: World, a: Advice, b: Advice, x: Advice, y: Advice, c: Call)
    ensures Applicable(w, [a, b, x, y], c)
         == ((if Applies(w, a, c) then [a] else []) + (if Applies(w, b, c) then [b] else []))
          + ((if Applies(w, x, c) then [x] else []) + (if Applies(w, y, c) then [y] else []))
  {
    assert [a, b, x, y] == [a, b] + [x, y];
    ApplicableAppend(w, [a, b], [x, y], c);
    ApplicableTwo(w, a, b, c);
    ApplicableTwo(w, x, y, c);
  }

  /** A four-advice chain whose first, second and fourth advices select the call keeps
      the third exactly when it selects the call too. */
  lemma AllButThird(w: World, a: Advice, b: Advice, x: Advice, y: Advice, c: Call)
    requires Applies(w, a, c) && Applies(w, b, c) && Applies(w, y, c)
    ensures Applicable(w, [a, b, x, y], c) == if Applies(w, x, c) then [a, b, x, y] else [a, b, y]
  {
    ApplicableFour(w, a, b, x, y, c);
  }

  /** Filtering keeps a chain whole when all its advice shares one pointcut that
      selects the call. */
  lemma {:induction false} OnePointcut(w: World, chain: seq<Advice>, c: Call, e: Expr)
    requires forall i :: 0 <= i < |chain| ==> chain[i].selector == e
    requires Eval(w, e, c.m, Context(w, c))
    ensures Applicable(w, chain, c) == chain
    decreases |chain|
  {
    if |chain| > 0 {
      OnePointcut(w, chain[1..], c, e);
      assert Applies(w, chain[0], c);
    }
  }
}
