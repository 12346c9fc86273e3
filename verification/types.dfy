/** Signature descriptors: the static facts about types and methods that pointcut
    matching reads. They stand in for Java reflection and are plain immutable values. */
module Types {
  import opened Outcomes

  /** A class or interface name: its package as segments, and its simple name. */
  datatype TypeName = TypeName(pkg: seq<string>, simple: string)

  /** The fully qualified name as dot-separated segments. */
  function Qualified(t: TypeName): seq<string> {
    t.pkg + [t.simple]
  }

  const ObjectType: TypeName := TypeName(["java", "lang"], "Object")
  const StringType: TypeName := TypeName(["java", "lang"], "String")
  const SerializableType: TypeName := TypeName(["java", "io"], "Serializable")
  const CharSequenceType: TypeName := TypeName(["java", "lang"], "CharSequence")
  const VoidType: TypeName := TypeName([], "void")

  /** An annotation instance with its (single) attribute, e.g. `@Retry(value = 4)`. */
  datatype AttrValue = NoValue | IntValue(i: int) | StrValue(s: string)
  datatype Annotation = Annotation(kind: TypeName, value: AttrValue)

  /** A method as `java.lang.reflect.Method` describes it. */
  datatype Method = Method(
    isPublic: bool,
    returnType: TypeName,
    declaringType: TypeName,
    name: string,
    params: seq<TypeName>,
    annotations: seq<Annotation>)

  /** Name and parameter types: what makes two declarations the same method. */
  datatype MethodKey = MethodKey(name: string, params: seq<TypeName>)

  function Key(m: Method): MethodKey {
    MethodKey(m.name, m.params)
  }

  /** What the model knows about one type: whether it is an interface, ALL its proper
      supertypes (transitively), its type-level annotations, and the methods it declares. */
  datatype ClassInfo = ClassInfo(
    isInterface: bool,
    supertypes: set<TypeName>,
    annotations: seq<Annotation>,
    declares: set<MethodKey>)

  datatype World = World(classes: map<TypeName, ClassInfo>)

  function Supertypes(w: World, t: TypeName): set<TypeName> {
    if t in w.classes then w.classes[t].supertypes else {}
  }

  /** Object has no supertype, and the supertype sets are closed under
      "supertype of a supertype". */
  ghost predicate WellFormed(w: World) {
    && Supertypes(w, ObjectType) == {}
    && forall a, b {:trigger b in w.classes[a].supertypes, w.classes[b]} ::
      a in w.classes && b in w.classes[a].supertypes && b in w.classes ==>
        w.classes[b].supertypes <= w.classes[a].supertypes
  }

  /** Java assignability between reference types: a value of runtime class `a`
      may be stored in a variable of type `b`. Every reference type is an Object. */
  predicate Assignable(w: World, a: TypeName, b: TypeName) {
    a == b || b == ObjectType || b in Supertypes(w, a)
  }

  lemma AssignableTransitive(w: World, a: TypeName, b: TypeName, c: TypeName)
    requires WellFormed(w)
    requires Assignable(w, a, b) && Assignable(w, b, c)
    ensures Assignable(w, a, c)
  {
    if a != b && b != ObjectType && b != c && c != ObjectType {
      assert a in w.classes && b in w.classes;
      assert b in w.classes[a].supertypes && c in w.classes[b].supertypes;
      assert w.classes[b].supertypes <= w.classes[a].supertypes;
    }
  }

  /** Annotations of a type (empty for a type the world does not describe). */
  function TypeAnnotations(w: World, t: TypeName): seq<Annotation> {
    if t in w.classes then w.classes[t].annotations else []
  }

  predicate HasAnnotation(annots: seq<Annotation>, kind: TypeName) {
    exists i :: 0 <= i < |annots| && annots[i].kind == kind
  }

  /** The first annotation of the given kind, as reflection's `getAnnotation` returns it. */
  function FindAnnotation(annots: seq<Annotation>, kind: TypeName): (r: Option<Annotation>)
    ensures r.None? <==> !HasAnnotation(annots, kind)
    ensures r.Some? ==> r.value.kind == kind && r.value in annots
  {
    if |annots| == 0 then None
    else if annots[0].kind == kind then Some(annots[0])
    else
      var r := FindAnnotation(annots[1..], kind);
      assert forall i :: 0 < i < |annots| ==> annots[i] == annots[1..][i - 1];
      r
  }

  /** The lookup returns the first annotation of the kind, wherever it sits in the list. */
  lemma {:induction false} FindFirst(pre: seq<Annotation>, a: Annotation, post: seq<Annotation>)
    requires forall i :: 0 <= i < |pre| ==> pre[i].kind != a.kind
    ensures FindAnnotation(pre + [a] + post, a.kind) == Some(a)
    decreases |pre|
  {
    if |pre| > 0 {
      FindFirst(pre[1..], a, post);
      assert (pre + [a] + post)[1..] == pre[1..] + [a] + post;
    }
  }

  /** The types on which method `m` is declared: its declaring type, and every supertype
      of it that declares a method with the same name and parameter types. */
  predicate DeclaredOn(w: World, m: Method, t: TypeName) {
    t == m.declaringType ||
    (t in Supertypes(w, m.declaringType) && t in w.classes && Key(m) in w.classes[t].declares)
  }
}
