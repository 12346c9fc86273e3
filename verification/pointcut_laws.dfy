/** General laws of pointcut matching: what each pattern shape selects, and why the
    static verdict can be trusted before a call is made. */
module PointcutLaws {
  import opened Types
  import opened Outcomes
  import opened Pointcut
  import Glob

  // ---------------------------------------------------------------- type patterns

  /** A literal package prefix consumes exactly those segments. */
  lemma {:induction false} LiteralPrefix(names: seq<string>, tail: TypePattern, q: seq<string>)
    requires AllLiteral(names)
    ensures QualifiedMatch(Lits(names) + tail, q) <==> names <= q && QualifiedMatch(tail, q[|names|..])
    decreases |names|
  {
    if |names| == 0 {
      assert Lits(names) + tail == tail;
      assert q[0..] == q;
    } else {
      var p := Lits(names) + tail;
      assert p[0] == Name(names[0]);
      assert p[1..] == Lits(names[1..]) + tail;
      if |q| > 0 {
        assert AllLiteral(names[1..]) by {
          forall i | 0 <= i < |names[1..]| ensures Glob.NoStar(names[1..][i]) {
            assert names[1..][i] == names[i + 1];
          }
        }
        LiteralPrefix(names[1..], tail, q[1..]);
        Glob.LiteralMatch(names[0], q[0]);
        if |names| <= |q| {
          assert q[1..][|names[1..]|..] == q[|names|..];
        }
        assert names <= q <==> names[0] == q[0] && names[1..] <= q[1..];
      }
    }
  }

  /** `..` followed by one name pattern: any non-empty run of segments whose last one matches. */
  lemma {:induction false} GapThenLast(g: string, r: seq<string>)
    ensures QualifiedMatch([AnyPackages, Name(g)], r) <==> |r| >= 1 && Glob.Match(g, r[|r| - 1])
    decreases |r|
  {
    var p: TypePattern := [AnyPackages, Name(g)];
    assert p[1..] == [Name(g)];
    assert [Name(g)][1..] == [];
    if |r| > 0 {
      GapThenLast(g, r[1..]);
      assert QualifiedMatch(p, r) == (QualifiedMatch([Name(g)], r) || QualifiedMatch(p, r[1..]));
      assert QualifiedMatch([Name(g)], r) == (Glob.Match(g, r[0]) && QualifiedMatch([], r[1..]));
      if |r| > 1 {
        assert r[1..][|r[1..]| - 1] == r[|r| - 1];
      }
    }
  }

  /** `pkg..*`: every type in package `pkg` or any of its sub-packages. */
  lemma PackageTreeMatch(names: seq<string>, t: TypeName)
    requires AllLiteral(names)
    ensures TypeMatch(Lits(names) + [AnyPackages, Name("*")], t) <==> names <= t.pkg
  {
    var q := Qualified(t);
    LiteralPrefix(names, [AnyPackages, Name("*")], q);
    if names <= q {
      GapThenLast("*", q[|names|..]);
      if |q[|names|..]| >= 1 {
        Glob.StarMatchesAll(q[|names|..][|q[|names|..]| - 1]);
      }
    }
    if names <= t.pkg {
      assert q[..|names|] == t.pkg[..|names|];
    }
    if names <= q && |names| < |q| {
      assert t.pkg[..|names|] == q[..|names|];
    }
  }

  /** `pkg.*`: exactly the types directly in package `pkg`. */
  lemma PackageMatch(names: seq<string>, t: TypeName)
    requires AllLiteral(names)
    ensures TypeMatch(Lits(names) + [Name("*")], t) <==> t.pkg == names
  {
    var q := Qualified(t);
    LiteralPrefix(names, [Name("*")], q);
    if names <= q && |q| == |names| + 1 {
      var rest := q[|names|..];
      Glob.StarMatchesAll(rest[0]);
      assert [Name("*")][1..] == [];
      assert t.pkg == q[..|q| - 1];
    }
    if t.pkg == names {
      assert q[|names|..] == [t.simple];
      Glob.StarMatchesAll(t.simple);
      assert [Name("*")][1..] == [];
    }
  }

  /** A fully spelled name selects exactly that type. */
  lemma ExactTypeMatch(names: seq<string>, simple: string, t: TypeName)
    requires AllLiteral(names + [simple])
    ensures TypeMatch(Lits(names + [simple]), t) <==> t == TypeName(names, simple)
  {
    var q := Qualified(t);
    LiteralPrefix(names + [simple], [], q);
    assert Lits(names + [simple]) + [] == Lits(names + [simple]);
    if t == TypeName(names, simple) {
      assert q[|names + [simple]|..] == [];
    }
    if names + [simple] <= q && |q[|names + [simple]|..]| == 0 {
      assert q == names + [simple];
      assert t.pkg == q[..|q| - 1] == names;
    }
  }

  /** `*..*Suffix`: types in any named package whose simple name ends in Suffix. */
  lemma NameSuffixMatch(suffix: string, t: TypeName)
    requires Glob.NoStar(suffix)
    ensures TypeMatch([Name("*"), AnyPackages, Name("*" + suffix)], t)
        <==> |t.pkg| >= 1 && Glob.IsSuffix(suffix, t.simple)
  {
    var p: TypePattern := [Name("*"), AnyPackages, Name("*" + suffix)];
    var q := Qualified(t);
    assert p[1..] == [AnyPackages, Name("*" + suffix)];
    Glob.StarMatchesAll(q[0]);
    GapThenLast("*" + suffix, q[1..]);
    Glob.SuffixMatch(suffix, t.simple);
    if |q[1..]| >= 1 {
      assert q[1..][|q[1..]| - 1] == t.simple;
    }
  }

  // ---------------------------------------------------------------- parameter patterns

  /** `(..)` accepts every parameter list, the empty one included. */
  lemma {:induction false} AnyParamsMatchesAll(w: World, ts: seq<TypeName>, exact: bool)
    ensures ParamsMatch(w, [AnyParams], ts, exact)
    decreases |ts|
  {
    assert [AnyParams][1..] == [];
    if |ts| > 0 {
      AnyParamsMatchesAll(w, ts[1..], exact);
    }
  }

  predicate ElementOk(w: World, p: ParamPattern, t: TypeName, exact: bool) {
    match p
    case Exactly(u) => ElementMatch(w, u, t, exact)
    case AnyParam => true
    case AnyParams => false
  }

  /** Without `..`, a parameter pattern is positional: same length, each element accepted. */
  lemma {:induction false} PositionalParams(w: World, ps: seq<ParamPattern>, ts: seq<TypeName>, exact: bool)
    requires !HasRest(ps)
    ensures ParamsMatch(w, ps, ts, exact)
        <==> |ps| == |ts| && forall i :: 0 <= i < |ps| ==> ElementOk(w, ps[i], ts[i], exact)
    decreases |ps|
  {
    if |ps| > 0 && |ts| > 0 {
      PositionalParams(w, ps[1..], ts[1..], exact);
      if |ps| == |ts| && forall i :: 0 <= i < |ps[1..]| ==> ElementOk(w, ps[1..][i], ts[1..][i], exact) {
        forall i | 0 < i < |ps| ensures ElementOk(w, ps[i], ts[i], exact) {
          assert ps[i] == ps[1..][i - 1] && ts[i] == ts[1..][i - 1];
        }
      }
    }
  }

  /** `(T, ..)`: at least one parameter, the first accepted by T. */
  lemma LeadingThenAny(w: World, t: TypeName, ts: seq<TypeName>, exact: bool)
    ensures ParamsMatch(w, [Exactly(t), AnyParams], ts, exact)
        <==> |ts| >= 1 && ElementMatch(w, t, ts[0], exact)
  {
    assert [Exactly(t), AnyParams][1..] == [AnyParams];
    if |ts| >= 1 {
      AnyParamsMatchesAll(w, ts[1..], exact);
    }
  }

  /** A match never violates the pattern's arity. */
  lemma {:induction false} MatchFitsArity(w: World, ps: seq<ParamPattern>, ts: seq<TypeName>, exact: bool)
    requires ParamsMatch(w, ps, ts, exact)
    ensures ArityFits(ps, |ts|)
    decreases |ps| + |ts|
  {
    if |ps| > 0 {
      match ps[0]
      case AnyParams =>
        if ParamsMatch(w, ps[1..], ts, exact) {
          MatchFitsArity(w, ps[1..], ts, exact);
        } else {
          MatchFitsArity(w, ps, ts[1..], exact);
        }
      case AnyParam =>
        MatchFitsArity(w, ps[1..], ts[1..], exact);
      case Exactly(_) =>
        MatchFitsArity(w, ps[1..], ts[1..], exact);
    }
  }

  /** An `args` pattern that accepts the declared parameter types accepts every
      argument list whose runtime types are assignable to them. */
  lemma {:induction false} ArgsNarrowing(w: World, ps: seq<ParamPattern>, declared: seq<TypeName>, actual: seq<TypeName>)
    requires WellFormed(w)
    requires ParamsMatch(w, ps, declared, false)
    requires |actual| == |declared|
    requires forall i :: 0 <= i < |declared| ==> Assignable(w, actual[i], declared[i])
    ensures ParamsMatch(w, ps, actual, false)
    decreases |ps| + |declared|
  {
    if |ps| > 0 {
      match ps[0]
      case AnyParams =>
        if ParamsMatch(w, ps[1..], declared, false) {
          ArgsNarrowing(w, ps[1..], declared, actual);
        } else {
          ArgsNarrowing(w, ps, declared[1..], actual[1..]);
        }
      case AnyParam =>
        ArgsNarrowing(w, ps[1..], declared[1..], actual[1..]);
      case Exactly(t) =>
        AssignableTransitive(w, actual[0], declared[0], t);
        ArgsNarrowing(w, ps[1..], declared[1..], actual[1..]);
    }
  }

  // ---------------------------------------------------------------- static against dynamic

  /** The static verdict is trustworthy: `Yes` means every consistent invocation
      matches, `No` means none does; only `Maybe` needs the live invocation. */
  lemma {:induction false} StaticSound(w: World, e: Expr, m: Method, ctx: Ctx)
    requires WellFormed(w)
    requires Consistent(w, m, ctx)
    ensures StaticMatch(w, e, m) == Yes ==> Eval(w, e, m, ctx)
    ensures StaticMatch(w, e, m) == No ==> !Eval(w, e, m, ctx)
  {
    match e
    case Args(ps) =>
      if ParamsMatch(w, ps, m.params, false) {
        ArgsNarrowing(w, ps, m.params, ctx.argTypes);
      } else if Eval(w, e, m, ctx) {
        MatchFitsArity(w, ps, ctx.argTypes, false);
      }
    case Target(t) =>
      if Assignable(w, m.declaringType, t) {
        AssignableTransitive(w, ctx.targetClass, m.declaringType, t);
      }
    case And(l, r) =>
      StaticSound(w, l, m, ctx);
      StaticSound(w, r, m, ctx);
    case Or(l, r) =>
      StaticSound(w, l, m, ctx);
      StaticSound(w, r, m, ctx);
    case Not(x) =>
      StaticSound(w, x, m, ctx);
    case _ =>
  }

  /** Static designators never defer: their verdict is decided and agrees with the
      dynamic match under every invocation. */
  lemma {:induction false} StaticDecided(w: World, e: Expr, m: Method, ctx: Ctx)
    requires IsStatic(e)
    ensures StaticMatch(w, e, m) == FromBool(Eval(w, e, m, ctx))
  {
    match e
    case And(l, r) =>
      StaticDecided(w, l, m, ctx);
      StaticDecided(w, r, m, ctx);
    case Or(l, r) =>
      StaticDecided(w, l, m, ctx);
      StaticDecided(w, r, m, ctx);
    case Not(x) =>
      StaticDecided(w, x, m, ctx);
    case _ =>
  }

  /** A method that no supertype of its class declares. */
  predicate OwnMethod(w: World, m: Method) {
    forall t :: t in Supertypes(w, m.declaringType) ==> !DeclaredOn(w, m, t)
  }

  /** A method that no supertype declares is selected by a declaring-type pattern
      exactly when its own type matches. */
  lemma DeclaredOnlyHere(w: World, p: TypePattern, m: Method)
    requires OwnMethod(w, m)
    ensures DeclaringMatches(w, Some(p), m) <==> TypeMatch(p, m.declaringType)
  {
    assert DeclaredOn(w, m, m.declaringType);
  }

  /** `execution(* *(..))` selects every method. */
  lemma ExecutionAnyMatchesAll(w: World, m: Method)
    ensures ExecutionMatches(w, MethodPattern(false, AnyReturn, None, "*", [AnyParams]), m)
  {
    Glob.StarMatchesAll(m.name);
    AnyParamsMatchesAll(w, m.params, true);
  }

  /** `execution(* pkg..*.*(..))` selects a method that no supertype declares exactly
      when its class lies in `pkg` or a sub-package. */
  lemma PackageTreeSelects(w: World, pkg: seq<string>, m: Method, ctx: Ctx)
    requires AllLiteral(pkg) && OwnMethod(w, m)
    ensures Eval(w, Execution(MethodPattern(false, AnyReturn, Some(Lits(pkg) + [AnyPackages, Name("*")]), "*", [AnyParams])), m, ctx)
        <==> pkg <= m.declaringType.pkg
  {
    DeclaredOnlyHere(w, Lits(pkg) + [AnyPackages, Name("*")], m);
    PackageTreeMatch(pkg, m.declaringType);
    Glob.StarMatchesAll(m.name);
    AnyParamsMatchesAll(w, m.params, true);
  }

  /** `execution(* pkg..*.*(..))` selects every method of a class in `pkg` or a
      sub-package, whatever its supertypes declare. */
  lemma PackageTreeSelectsAll(w: World, pkg: seq<string>, m: Method, ctx: Ctx)
    requires AllLiteral(pkg) && pkg <= m.declaringType.pkg
    ensures Eval(w, Execution(MethodPattern(false, AnyReturn, Some(Lits(pkg) + [AnyPackages, Name("*")]), "*", [AnyParams])), m, ctx)
  {
    assert DeclaredOn(w, m, m.declaringType);
    PackageTreeMatch(pkg, m.declaringType);
    Glob.StarMatchesAll(m.name);
    AnyParamsMatchesAll(w, m.params, true);
  }
}
