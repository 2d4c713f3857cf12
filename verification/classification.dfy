/**
 * The classifier: which classes are client-only (`isClientOnlyClass`), and
 * the four lists the visitor in `SideOnlyContext`'s `init` block fills
 * during one walk over the files.
 *
 * `Classify` folds the visitor's per-element actions over the order in which
 * they run (`visits`); the class `SideOnlyContext` builds the same lists with
 * a loop and is proved equal to it.
 */
module Classification {
  import opened Psi
  import opened Suppression

  // ---------------------------------------------------------------------------
  // Class status

  /** `c` followed by its superclass, that class's superclass, and so on, up to the first class without one. */
  function SuperChain(t: Tree, c: Id): (chain: seq<Id>)
    requires WellFormed(t) && c in t
    ensures |chain| >= 1 && chain[0] == c
    ensures forall i :: 0 <= i < |chain| ==> chain[i] in t
    decreases t[c].superRank
  {
    match t[c].superClass
    case None => [c]
    case Some(s) => [c] + SuperChain(t, s)
  }

  /** `c` followed by its containing class, that class's containing class, and so on. */
  function ContainingChain(t: Tree, c: Id): (chain: seq<Id>)
    requires WellFormed(t) && c in t
    ensures |chain| >= 1 && chain[0] == c
    ensures forall i :: 0 <= i < |chain| ==> chain[i] in t
    decreases t[c].depth
  {
    match t[c].containingClass
    case None => [c]
    case Some(p) => [c] + ContainingChain(t, p)
  }

  /** The loop of `isClientOnlyClass`: walking up from `c`, some class carries `@SideOnly`. */
  predicate AnnotatedOnChain(t: Tree, c: Id)
    requires WellFormed(t) && c in t
    decreases t[c].superRank
  {
    HasSideOnly(t[c]) || (t[c].superClass.Some? && AnnotatedOnChain(t, t[c].superClass.value))
  }

  /** `isClientOnlyClass`: the containing class is client-only, or the superclass chain is annotated. */
  predicate ClientOnlyClass(t: Tree, c: Id)
    requires WellFormed(t) && c in t
    decreases t[c].depth
  {
    (t[c].containingClass.Some? && ClientOnlyClass(t, t[c].containingClass.value))
    || AnnotatedOnChain(t, c)
  }

  /** Some class of `s` carries `@SideOnly`. */
  predicate SomeAnnotated(t: Tree, s: seq<Id>)
    requires forall i :: 0 <= i < |s| ==> s[i] in t
  {
    exists i :: 0 <= i < |s| && HasSideOnly(t[s[i]])
  }

  /** Some class of `s` has an annotated class on its superclass chain. */
  predicate SomeAnnotatedOnChain(t: Tree, s: seq<Id>)
    requires WellFormed(t) && forall i :: 0 <= i < |s| ==> s[i] in t
  {
    exists i :: 0 <= i < |s| && AnnotatedOnChain(t, s[i])
  }

  lemma SomeAnnotatedCons(t: Tree, c: Id, rest: seq<Id>)
    requires c in t && forall i :: 0 <= i < |rest| ==> rest[i] in t
    ensures forall i :: 0 <= i < |[c] + rest| ==> ([c] + rest)[i] in t
    ensures SomeAnnotated(t, [c] + rest) <==> HasSideOnly(t[c]) || SomeAnnotated(t, rest)
  {
    var s := [c] + rest;
    if HasSideOnly(t[c]) { assert HasSideOnly(t[s[0]]); }
    if SomeAnnotated(t, rest) {
      var i :| 0 <= i < |rest| && HasSideOnly(t[rest[i]]);
      assert s[i + 1] == rest[i];
    }
    if SomeAnnotated(t, s) {
      var i :| 0 <= i < |s| && HasSideOnly(t[s[i]]);
      if i > 0 { assert rest[i - 1] == s[i]; }
    }
  }

  lemma SomeAnnotatedOnChainCons(t: Tree, c: Id, rest: seq<Id>)
    requires WellFormed(t) && c in t && forall i :: 0 <= i < |rest| ==> rest[i] in t
    ensures forall i :: 0 <= i < |[c] + rest| ==> ([c] + rest)[i] in t
    ensures SomeAnnotatedOnChain(t, [c] + rest) <==> AnnotatedOnChain(t, c) || SomeAnnotatedOnChain(t, rest)
  {
    var s := [c] + rest;
    if AnnotatedOnChain(t, c) { assert AnnotatedOnChain(t, s[0]); }
    if SomeAnnotatedOnChain(t, rest) {
      var i :| 0 <= i < |rest| && AnnotatedOnChain(t, rest[i]);
      assert s[i + 1] == rest[i];
    }
    if SomeAnnotatedOnChain(t, s) {
      var i :| 0 <= i < |s| && AnnotatedOnChain(t, s[i]);
      if i > 0 { assert rest[i - 1] == s[i]; }
    }
  }

  /** The loop of `isClientOnlyClass` finds an annotation iff some class of the superclass chain carries one. */
  lemma {:induction false} AnnotatedOnChainIff(t: Tree, c: Id)
    requires WellFormed(t) && c in t
    ensures AnnotatedOnChain(t, c) <==> SomeAnnotated(t, SuperChain(t, c))
    decreases t[c].superRank
  {
    match t[c].superClass
    case None =>
      SomeAnnotatedCons(t, c, []);
      assert SuperChain(t, c) == [c] + [];
    case Some(s) =>
      AnnotatedOnChainIff(t, s);
      SomeAnnotatedCons(t, c, SuperChain(t, s));
  }

  /**
   * Class classification in closed form: `c` is client-only iff some class
   * lexically around it (itself included) has, on its superclass chain
   * (itself included), a class that carries `@SideOnly`.
   */
  lemma {:induction false} ClientOnlyClassIff(t: Tree, c: Id)
    requires WellFormed(t) && c in t
    ensures ClientOnlyClass(t, c) <==> SomeAnnotatedOnChain(t, ContainingChain(t, c))
    decreases t[c].depth
  {
    match t[c].containingClass
    case None =>
      SomeAnnotatedOnChainCons(t, c, []);
      assert ContainingChain(t, c) == [c] + [];
    case Some(p) =>
      ClientOnlyClassIff(t, p);
      SomeAnnotatedOnChainCons(t, c, ContainingChain(t, p));
  }

  /** Annotating any class makes every class below it in the inheritance graph client-only. */
  lemma AnnotatedAncestorMakesClientOnly(t: Tree, c: Id, i: nat)
    requires WellFormed(t) && c in t
    requires i < |SuperChain(t, c)| && HasSideOnly(t[SuperChain(t, c)[i]])
    ensures ClientOnlyClass(t, c)
  {
    AnnotatedOnChainIff(t, c);
  }

  /**
   * Class 0 is annotated, class 1 is declared inside it, and class 2 is a
   * top-level class that extends class 1.
   */
  function InnerSubclassTree(): Tree
  {
    var outer := Element(Class, [Annotation(SideOnlyAnnoName, Some([]))],
                         None, None, None, None, None, false, false, 0, 0);
    var inner := Element(Class, [], None, Some(0), Some(0), None, Some(0), false, false, 1, 0);
    var sub := Element(Class, [], Some(1), None, None, None, None, false, false, 0, 1);
    map[0 := outer, 1 := inner, 2 := sub]
  }

  /**
   * Client-only status that comes from a containing class is not inherited:
   * an inner class of an annotated class is client-only, a top-level subclass
   * of that inner class is not.
   */
  lemma LexicalStatusIsNotInherited()
    ensures exists t: Tree, inner: Id, sub: Id ::
      && WellFormed(t) && inner in t && sub in t
      && t[sub].superClass == Some(inner)
      && ClientOnlyClass(t, inner) && !ClientOnlyClass(t, sub)
  {
    var t := InnerSubclassTree();
    assert t[0].annotations[0].qualifiedName == SideOnlyAnnoName;
    assert !HasSideOnly(t[1]) && !HasSideOnly(t[2]);
    assert WellFormed(t);
    assert !AnnotatedOnChain(t, 1);
    assert !AnnotatedOnChain(t, 2);
    assert t[2].containingClass.None?;
    assert ClientOnlyClass(t, 2) == AnnotatedOnChain(t, 2);
    assert ClientOnlyClass(t, 1) && !ClientOnlyClass(t, 2);
  }

  // ---------------------------------------------------------------------------
  // The visitor

  /** The four lists of `SideOnlyContext`. */
  datatype Lists = Lists(
    clientOnlyClasses: seq<Id>,
    clientOnlyMethods: seq<Id>,
    clientOnlyFields: seq<Id>,
    ignoreSideOnlyMethods: seq<Id>)

  const Empty := Lists([], [], [], [])

  /** What the visitor's `!!`s demand of a visited element. */
  predicate VisitOk(t: Tree, e: Id)
  {
    && e in t
    && (t[e].kind.AnonymousClass? ==> t[e].parentClass.Some?)
    && (t[e].kind.Method? ==> HasParameterList(t[e]))
  }

  predicate VisitsOk(t: Tree, visits: seq<Id>)
  {
    forall i :: 0 <= i < |visits| ==> VisitOk(t, visits[i])
  }

  /** `visitAnonymousClass`'s own test: the nearest enclosing class is client-only, or the nearest enclosing method is annotated. */
  predicate AnonymousClientOnly(t: Tree, a: Id)
    requires WellFormed(t) && VisitOk(t, a) && t[a].kind.AnonymousClass?
  {
    ClientOnlyClass(t, t[a].parentClass.value)
    || (t[a].parentMethod.Some? && HasSideOnly(t[t[a].parentMethod.value]))
  }

  function VisitClass(t: Tree, l: Lists, c: Id): Lists
    requires WellFormed(t) && c in t
  {
    if ClientOnlyClass(t, c) then l.(clientOnlyClasses := l.clientOnlyClasses + [c]) else l
  }

  /** `super.visitAnonymousClass` runs the overridden `visitClass` first. */
  function VisitAnonymousClass(t: Tree, l: Lists, a: Id): Lists
    requires WellFormed(t) && VisitOk(t, a) && t[a].kind.AnonymousClass?
  {
    var l' := VisitClass(t, l, a);
    if AnonymousClientOnly(t, a) then l'.(clientOnlyClasses := l'.clientOnlyClasses + [a]) else l'
  }

  function VisitMethod(t: Tree, l: Lists, m: Id): Lists
    requires VisitOk(t, m) && t[m].kind.Method?
  {
    l.(clientOnlyMethods :=
         if HasSideOnly(t[m]) then l.clientOnlyMethods + [m] else l.clientOnlyMethods,
       ignoreSideOnlyMethods :=
         if DoesIgnoreSideOnly(t[m]) then l.ignoreSideOnlyMethods + [m] else l.ignoreSideOnlyMethods)
  }

  function VisitField(t: Tree, l: Lists, f: Id): Lists
    requires f in t
  {
    if HasSideOnly(t[f]) then l.(clientOnlyFields := l.clientOnlyFields + [f]) else l
  }

  /** The overridden visit method that runs for `e`, if any. */
  function Visit(t: Tree, l: Lists, e: Id): Lists
    requires WellFormed(t) && VisitOk(t, e)
  {
    match t[e].kind
    case Class => VisitClass(t, l, e)
    case AnonymousClass => VisitAnonymousClass(t, l, e)
    case Method => VisitMethod(t, l, e)
    case Field => VisitField(t, l, e)
    case _ => l
  }

  /** The lists after the visitor has run on `visits`, in that order. */
  function Classify(t: Tree, visits: seq<Id>): Lists
    requires WellFormed(t) && VisitsOk(t, visits)
  {
    if visits == [] then Empty
    else Visit(t, Classify(t, visits[..|visits| - 1]), visits[|visits| - 1])
  }

  /** Splits `v` into its last visit and what came before, for the inductions below. */
  lemma SplitLast(t: Tree, v: seq<Id>)
    requires WellFormed(t) && VisitsOk(t, v) && v != []
    ensures VisitsOk(t, v[..|v| - 1]) && VisitOk(t, v[|v| - 1])
    ensures v == v[..|v| - 1] + [v[|v| - 1]]
    ensures forall x :: x in v <==> x in v[..|v| - 1] || x == v[|v| - 1]
  {
  }

  /**
   * The client-only class list holds exactly the visited classes that
   * `isClientOnlyClass` accepts, and the visited anonymous classes whose
   * enclosing class is client-only or whose enclosing method is annotated.
   */
  lemma {:induction false} ClientOnlyClassesListed(t: Tree, v: seq<Id>, c: Id)
    requires WellFormed(t) && VisitsOk(t, v)
    ensures c in Classify(t, v).clientOnlyClasses <==>
      c in v && t[c].kind.IsClass()
      && (ClientOnlyClass(t, c) || (t[c].kind.AnonymousClass? && AnonymousClientOnly(t, c)))
  {
    if v != [] {
      SplitLast(t, v);
      ClientOnlyClassesListed(t, v[..|v| - 1], c);
    }
  }

  /** A method is listed iff it is visited and annotated: a client-only class does not make its methods client-only. */
  lemma {:induction false} ClientOnlyMethodsListed(t: Tree, v: seq<Id>, m: Id)
    requires WellFormed(t) && VisitsOk(t, v)
    ensures m in Classify(t, v).clientOnlyMethods <==>
      m in v && t[m].kind.Method? && HasSideOnly(t[m])
  {
    if v != [] {
      SplitLast(t, v);
      ClientOnlyMethodsListed(t, v[..|v| - 1], m);
    }
  }

  /** A field is listed iff it is visited and annotated: a client-only class does not make its fields client-only. */
  lemma {:induction false} ClientOnlyFieldsListed(t: Tree, v: seq<Id>, f: Id)
    requires WellFormed(t) && VisitsOk(t, v)
    ensures f in Classify(t, v).clientOnlyFields <==>
      f in v && t[f].kind.Field? && HasSideOnly(t[f])
  {
    if v != [] {
      SplitLast(t, v);
      ClientOnlyFieldsListed(t, v[..|v| - 1], f);
    }
  }

  /** A method is listed as suppressing iff it is visited and `doesIgnoreSideOnly` holds of it. */
  lemma {:induction false} SuppressingMethodsListed(t: Tree, v: seq<Id>, m: Id)
    requires WellFormed(t) && VisitsOk(t, v)
    ensures m in Classify(t, v).ignoreSideOnlyMethods <==>
      m in v && t[m].kind.Method? && DoesIgnoreSideOnly(t[m])
  {
    if v != [] {
      SplitLast(t, v);
      SuppressingMethodsListed(t, v[..|v| - 1], m);
    }
  }

  /**
   * An anonymous class is appended twice when both `visitClass` (reached
   * through `super.visitAnonymousClass`) and `visitAnonymousClass` accept it.
   */
  lemma AnonymousClassMayBeListedTwice()
    ensures exists t: Tree, a: Id ::
      WellFormed(t) && VisitOk(t, a) && Classify(t, [a]).clientOnlyClasses == [a, a]
  {
    var outer := Element(Class, [Annotation(SideOnlyAnnoName, Some([]))],
                         None, None, None, None, None, false, false, 0, 0);
    var anon := Element(AnonymousClass, [], Some(0), None, Some(0), None, Some(0), false, false, 1, 1);
    var t := map[0 := outer, 1 := anon];
    assert t[0].annotations[0].qualifiedName == SideOnlyAnnoName;
    assert WellFormed(t);
    assert VisitsOk(t, [1]);
    assert AnnotatedOnChain(t, 1) && ClientOnlyClass(t, 1);
    assert AnonymousClientOnly(t, 1);
    assert [1][..0] == [];
    assert Classify(t, [1]) == VisitAnonymousClass(t, Empty, 1);
    assert Classify(t, [1]).clientOnlyClasses == [1, 1];
  }
}
