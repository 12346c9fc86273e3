/** Pointcut expressions and their matching: the AspectJ designators this code base
    uses (`execution`, `within`, `args`, `this`, `target`, `@annotation`, `@within`,
    `@target`, `@args`) and their `&&`, `||`, `!` combinations. */
module Pointcut {
  import opened Types
  import opened Outcomes
  import Glob

  // ---------------------------------------------------------------- type patterns

  /** One dot-separated piece of a type pattern: a name pattern, or the `..` gap,
      which stands for any number (zero included) of package segments. */
  datatype Segment = Name(glob: string) | AnyPackages

  type TypePattern = seq<Segment>

  function QualifiedMatch(p: TypePattern, q: seq<string>): bool
    decreases |p| + |q|
  {
    if |p| == 0 then |q| == 0
    else match p[0]
      case AnyPackages => QualifiedMatch(p[1..], q) || (|q| > 0 && QualifiedMatch(p, q[1..]))
      case Name(g) => |q| > 0 && Glob.Match(g, q[0]) && QualifiedMatch(p[1..], q[1..])
  }

  predicate TypeMatch(p: TypePattern, t: TypeName) {
    QualifiedMatch(p, Qualified(t))
  }

  /** The pattern spelling the given segments literally. */
  function Lits(names: seq<string>): (r: TypePattern)
    ensures |r| == |names|
    ensures forall i :: 0 <= i < |names| ==> r[i] == Name(names[i])
  {
    if |names| == 0 then [] else [Name(names[0])] + Lits(names[1..])
  }

  predicate AllLiteral(names: seq<string>) {
    forall i :: 0 <= i < |names| ==> Glob.NoStar(names[i])
  }

  // ---------------------------------------------------------------- parameter patterns

  /** A parameter-list element: a type, `*` (exactly one parameter of any type),
      or `..` (any number of parameters of any type). */
  datatype ParamPattern = Exactly(t: TypeName) | AnyParam | AnyParams

  /** How one parameter element judges one type. `execution` compares declared
      types exactly; `args` accepts any runtime type assignable to the pattern. */
  predicate ElementMatch(w: World, t: TypeName, actual: TypeName, exact: bool) {
    if exact then actual == t else Assignable(w, actual, t)
  }

  function ParamsMatch(w: World, ps: seq<ParamPattern>, ts: seq<TypeName>, exact: bool): bool
    decreases |ps| + |ts|
  {
    if |ps| == 0 then |ts| == 0
    else match ps[0]
      case AnyParams => ParamsMatch(w, ps[1..], ts, exact) || (|ts| > 0 && ParamsMatch(w, ps, ts[1..], exact))
      case AnyParam => |ts| > 0 && ParamsMatch(w, ps[1..], ts[1..], exact)
      case Exactly(t) => |ts| > 0 && ElementMatch(w, t, ts[0], exact) && ParamsMatch(w, ps[1..], ts[1..], exact)
  }

  /** Number of elements that consume exactly one parameter. */
  function MinArity(ps: seq<ParamPattern>): nat {
    if |ps| == 0 then 0 else (if ps[0].AnyParams? then 0 else 1) + MinArity(ps[1..])
  }

  function HasRest(ps: seq<ParamPattern>): bool {
    |ps| > 0 && (ps[0].AnyParams? || HasRest(ps[1..]))
  }

  /** The parameter counts a pattern can possibly accept, whatever the types. */
  predicate ArityFits(ps: seq<ParamPattern>, n: nat) {
    if HasRest(ps) then n >= MinArity(ps) else n == MinArity(ps)
  }

  // ---------------------------------------------------------------- expressions

  datatype ReturnPattern = AnyReturn | ReturnType(t: TypeName)

  /** `execution([public] ret [declaring.]name(params))`. */
  datatype MethodPattern = MethodPattern(
    publicOnly: bool,
    ret: ReturnPattern,
    declaring: Option<TypePattern>,
    name: string,
    params: seq<ParamPattern>)

  datatype Expr =
    | Execution(p: MethodPattern)
    | Within(tp: TypePattern)
    | Args(ps: seq<ParamPattern>)
    | This(t: TypeName)
    | Target(t: TypeName)
    | AtAnnotation(a: TypeName)
    | AtWithin(a: TypeName)
    | AtTarget(a: TypeName)
    | AtArgs(anns: seq<TypeName>)
    | And(l: Expr, r: Expr)
    | Or(l: Expr, r: Expr)
    | Not(e: Expr)

  /** The live invocation: the types the proxy can be viewed as (the `this` object),
      the class of the real target object, and the runtime classes of the arguments. */
  datatype Ctx = Ctx(thisView: set<TypeName>, targetClass: TypeName, argTypes: seq<TypeName>)

  predicate ReturnMatches(p: ReturnPattern, t: TypeName) {
    p.AnyReturn? || p.t == t
  }

  /** A declaring-type pattern matches when some type on which the method is declared
      matches it: naming an interface selects the methods the interface declares. */
  predicate DeclaringMatches(w: World, p: Option<TypePattern>, m: Method) {
    p.None? ||
    exists t :: t in {m.declaringType} + Supertypes(w, m.declaringType) && DeclaredOn(w, m, t) && TypeMatch(p.value, t)
  }

  predicate ExecutionMatches(w: World, p: MethodPattern, m: Method) {
    && (!p.publicOnly || m.isPublic)
    && ReturnMatches(p.ret, m.returnType)
    && DeclaringMatches(w, p.declaring, m)
    && Glob.Match(p.name, m.name)
    && ParamsMatch(w, p.params, m.params, true)
  }

  /** Matching against a method and a live invocation. */
  predicate Eval(w: World, e: Expr, m: Method, ctx: Ctx) {
    match e
    case Execution(p) => ExecutionMatches(w, p, m)
    case Within(tp) => TypeMatch(tp, m.declaringType)
    case Args(ps) => ParamsMatch(w, ps, ctx.argTypes, false)
    case This(t) => t in ctx.thisView
    case Target(t) => Assignable(w, ctx.targetClass, t)
    case AtAnnotation(a) => HasAnnotation(m.annotations, a)
    case AtWithin(a) => HasAnnotation(TypeAnnotations(w, m.declaringType), a)
    case AtTarget(a) => HasAnnotation(TypeAnnotations(w, ctx.targetClass), a)
    case AtArgs(anns) =>
      |ctx.argTypes| == |anns| &&
      forall i :: 0 <= i < |anns| ==> HasAnnotation(TypeAnnotations(w, ctx.argTypes[i]), anns[i])
    case And(l, r) => Eval(w, l, m, ctx) && Eval(w, r, m, ctx)
    case Or(l, r) => Eval(w, l, m, ctx) || Eval(w, r, m, ctx)
    case Not(x) => !Eval(w, x, m, ctx)
  }

  // ---------------------------------------------------------------- static matching

  /** Matching from the method alone, before any call: dynamic designators that the
      declared signature cannot settle answer `Maybe`, never a silent `No`. */
  datatype Verdict = Yes | No | Maybe

  function FromBool(b: bool): Verdict {
    if b then Yes else No
  }

  function And3(a: Verdict, b: Verdict): Verdict {
    if a == No || b == No then No else if a == Yes && b == Yes then Yes else Maybe
  }

  function Or3(a: Verdict, b: Verdict): Verdict {
    if a == Yes || b == Yes then Yes else if a == No && b == No then No else Maybe
  }

  function Not3(a: Verdict): Verdict {
    match a
    case Yes => No
    case No => Yes
    case Maybe => Maybe
  }

  function StaticMatch(w: World, e: Expr, m: Method): Verdict {
    match e
    case Execution(p) => FromBool(ExecutionMatches(w, p, m))
    case Within(tp) => FromBool(TypeMatch(tp, m.declaringType))
    case AtAnnotation(a) => FromBool(HasAnnotation(m.annotations, a))
    case AtWithin(a) => FromBool(HasAnnotation(TypeAnnotations(w, m.declaringType), a))
    case Args(ps) =>
      if ParamsMatch(w, ps, m.params, false) then Yes
      else if !ArityFits(ps, |m.params|) then No
      else Maybe
    case This(_) => Maybe
    case Target(t) => if Assignable(w, m.declaringType, t) then Yes else Maybe
    case AtTarget(_) => Maybe
    case AtArgs(anns) => if |anns| != |m.params| then No else Maybe
    case And(l, r) => And3(StaticMatch(w, l, m), StaticMatch(w, r, m))
    case Or(l, r) => Or3(StaticMatch(w, l, m), StaticMatch(w, r, m))
    case Not(x) => Not3(StaticMatch(w, x, m))
  }

  /** The designators decidable from the signature alone. */
  predicate IsStatic(e: Expr) {
    match e
    case Execution(_) => true
    case Within(_) => true
    case AtAnnotation(_) => true
    case AtWithin(_) => true
    case And(l, r) => IsStatic(l) && IsStatic(r)
    case Or(l, r) => IsStatic(l) && IsStatic(r)
    case Not(x) => IsStatic(x)
    case _ => false
  }

  /** A live invocation of `m` that Java's typing allows: as many arguments as
      parameters, each assignable to its declared type, and a target object whose
      class is assignable to the declaring type. */
  ghost predicate Consistent(w: World, m: Method, ctx: Ctx) {
    && |ctx.argTypes| == |m.params|
    && (forall i :: 0 <= i < |m.params| ==> Assignable(w, ctx.argTypes[i], m.params[i]))
    && Assignable(w, ctx.targetClass, m.declaringType)
  }
}
