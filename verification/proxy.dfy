/** The two proxy styles: an interface-based (JDK dynamic) proxy implements the target's
    interfaces; a subclass-based (CGLIB) proxy extends the target's class. Only the
    types a proxy can be viewed as are modelled, not how it is generated. */
module Proxy {
  import opened Types

  datatype ProxyKind = InterfaceBased | SubclassBased

  /** The interfaces among a type's supertypes. */
  function Interfaces(w: World, t: TypeName): set<TypeName> {
    set s | s in Supertypes(w, t) && s in w.classes && w.classes[s].isInterface
  }

  /** The `proxyTargetClass` option chooses the style, except that a target without
      interfaces can only be proxied by subclassing. */
  function ChooseKind(w: World, proxyTargetClass: bool, target: TypeName): ProxyKind {
    if proxyTargetClass || Interfaces(w, target) == {} then SubclassBased else InterfaceBased
  }

  /** The types the proxy object is an instance of. */
  function ThisView(w: World, kind: ProxyKind, target: TypeName): set<TypeName> {
    match kind
    case InterfaceBased => Interfaces(w, target) + {ObjectType}
    case SubclassBased => {target} + Supertypes(w, target) + {ObjectType}
  }

  /** A cast of the proxy reference to type `to`: it succeeds or throws ClassCastException. */
  datatype CastResult = CastOk | ClassCastException

  function Cast(w: World, kind: ProxyKind, target: TypeName, to: TypeName): CastResult {
    if to in ThisView(w, kind, target) then CastOk else ClassCastException
  }

  /** A subclass-based proxy can be viewed as exactly the types the target itself can. */
  lemma SubclassViewIsAssignability(w: World, target: TypeName, to: TypeName)
    ensures to in ThisView(w, SubclassBased, target) <==> Assignable(w, target, to)
  {
  }

  /** An interface-based proxy can be viewed as Object and the target's interfaces only:
      never as a concrete class. */
  lemma InterfaceViewHasNoClass(w: World, target: TypeName, to: TypeName)
    requires to in w.classes && !w.classes[to].isInterface && to != ObjectType
    ensures Cast(w, InterfaceBased, target, to) == ClassCastException
  {
  }

  /** Whatever an interface-based proxy can be viewed as, a subclass-based one can too. */
  lemma InterfaceViewWithinSubclassView(w: World, target: TypeName)
    ensures ThisView(w, InterfaceBased, target) <= ThisView(w, SubclassBased, target)
  {
  }

  /** A target with no interface always gets the subclass-based proxy. */
  lemma NoInterfaceMeansSubclass(w: World, proxyTargetClass: bool, target: TypeName)
    requires Interfaces(w, target) == {}
    ensures ChooseKind(w, proxyTargetClass, target) == SubclassBased
  {
  }
}
