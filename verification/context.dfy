/**
 * `isInClientOnlyContext`: whether code at an element already runs only on
 * the client, so that a reference from there to a client-only symbol is fine.
 *
 * The decision is a three-way dispatch on the element's kind: a class looks
 * for a listed class on its superclass chain; a member is in context when it
 * is itself listed, or has no containing class, or its containing class is
 * in context; anything else takes the answer of its nearest enclosing member,
 * and is in context when it has none.
 */
module Context {
  import opened Psi
  import opened Classification

  /** The class branch: walking up the superclass chain from `c` meets a listed class. */
  predicate ClassInContext(t: Tree, classes: seq<Id>, c: Id)
    requires WellFormed(t) && c in t
    decreases t[c].superRank
  {
    c in classes || (t[c].superClass.Some? && ClassInContext(t, classes, t[c].superClass.value))
  }

  /** `isInClientOnlyContext(e)` against the lists `l`. */
  predicate InContext(t: Tree, l: Lists, e: Id)
    requires WellFormed(t) && e in t
    decreases t[e].depth
  {
    var x := t[e];
    if x.kind.IsClass() then
      ClassInContext(t, l.clientOnlyClasses, e)
    else if x.kind.IsMember() then
      e in l.clientOnlyMethods || e in l.clientOnlyFields
      || x.containingClass.None? || InContext(t, l, x.containingClass.value)
    else
      x.parentMember.None? || InContext(t, l, x.parentMember.value)
  }

  /** Some class of `c`'s superclass chain, `c` included, is listed. */
  predicate ChainHits(t: Tree, classes: seq<Id>, c: Id)
    requires WellFormed(t) && c in t
  {
    SomeListed(classes, SuperChain(t, c))
  }

  predicate SomeListed(classes: seq<Id>, s: seq<Id>)
  {
    exists i :: 0 <= i < |s| && s[i] in classes
  }

  lemma SomeListedCons(classes: seq<Id>, c: Id, rest: seq<Id>)
    ensures SomeListed(classes, [c] + rest) <==> c in classes || SomeListed(classes, rest)
  {
    var s := [c] + rest;
    if c in classes { assert s[0] in classes; }
    if SomeListed(classes, rest) {
      var i :| 0 <= i < |rest| && rest[i] in classes;
      assert s[i + 1] == rest[i];
    }
    if SomeListed(classes, s) {
      var i :| 0 <= i < |s| && s[i] in classes;
      if i > 0 { assert rest[i - 1] == s[i]; }
    }
  }

  /** The member rule, with the class branch in closed form. */
  predicate MemberRule(t: Tree, l: Lists, m: Id)
    requires WellFormed(t) && m in t
  {
    m in l.clientOnlyMethods || m in l.clientOnlyFields
    || t[m].containingClass.None? || ChainHits(t, l.clientOnlyClasses, t[m].containingClass.value)
  }

  /** A class is in context iff some class of its superclass chain is listed; false when the chain ends without one. */
  lemma {:induction false} ClassContextIff(t: Tree, classes: seq<Id>, c: Id)
    requires WellFormed(t) && c in t
    ensures ClassInContext(t, classes, c) <==> ChainHits(t, classes, c)
    decreases t[c].superRank
  {
    match t[c].superClass
    case None =>
      SomeListedCons(classes, c, []);
      assert SuperChain(t, c) == [c] + [];
    case Some(s) =>
      ClassContextIff(t, classes, s);
      SomeListedCons(classes, c, SuperChain(t, s));
  }

  /**
   * A member is in context iff it is a listed method or field, or it has no
   * containing class, or a listed class lies on its containing class's
   * superclass chain.
   */
  lemma MemberContextIff(t: Tree, l: Lists, m: Id)
    requires WellFormed(t) && m in t && t[m].kind.IsMember()
    ensures InContext(t, l, m) <==> MemberRule(t, l, m)
  {
    if t[m].containingClass.Some? {
      ClassContextIff(t, l.clientOnlyClasses, t[m].containingClass.value);
    }
  }

  /**
   * Any other element is in context iff it has no enclosing member, or its
   * nearest enclosing member is a class whose chain hits the list, or a
   * member for which the member rule holds.
   */
  lemma OtherContextIff(t: Tree, l: Lists, e: Id)
    requires WellFormed(t) && e in t && !t[e].kind.IsClass() && !t[e].kind.IsMember()
    ensures InContext(t, l, e) <==>
      match t[e].parentMember
      case None => true
      case Some(p) =>
        if t[p].kind.IsClass() then ChainHits(t, l.clientOnlyClasses, p) else MemberRule(t, l, p)
  {
    match t[e].parentMember
    case None =>
    case Some(p) =>
      if t[p].kind.IsClass() {
        ClassContextIff(t, l.clientOnlyClasses, p);
      } else {
        MemberContextIff(t, l, p);
      }
  }

  /** The member branch of `isInClientOnlyContext` returns true when the member has no containing class. */
  lemma OrphanMemberInContext(t: Tree, l: Lists, m: Id)
    requires WellFormed(t) && m in t && t[m].kind.IsMember() && t[m].containingClass.None?
    ensures InContext(t, l, m)
  {
  }

  /** The last branch of `isInClientOnlyContext` returns true when the element has no enclosing member. */
  lemma OrphanElementInContext(t: Tree, l: Lists, e: Id)
    requires WellFormed(t) && e in t && !t[e].kind.IsClass() && !t[e].kind.IsMember()
    requires t[e].parentMember.None?
    ensures InContext(t, l, e)
  {
  }

  /**
   * Once the walk has visited a class, an annotated class anywhere on its
   * superclass chain makes it a client-only context, whether or not the
   * annotated ancestor itself was visited (it may come from a library).
   */
  lemma AnnotatedAncestorGivesContext(t: Tree, v: seq<Id>, c: Id, i: nat)
    requires WellFormed(t) && VisitsOk(t, v) && c in t && t[c].kind.IsClass() && c in v
    requires i < |SuperChain(t, c)| && HasSideOnly(t[SuperChain(t, c)[i]])
    ensures InContext(t, Classify(t, v), c)
  {
    AnnotatedAncestorMakesClientOnly(t, c, i);
    ClientOnlyClassesListed(t, v, c);
  }

  /**
   * Lexical status does reach subclasses through the context decision: once
   * the inner class of an annotated class has been visited, its top-level
   * subclass is a client-only context although it is not client-only.
   */
  lemma SubclassOfListedInnerClassInContext()
    ensures var t := InnerSubclassTree();
      WellFormed(t) && VisitsOk(t, [1]) && !ClientOnlyClass(t, 2) && InContext(t, Classify(t, [1]), 2)
  {
    var t := InnerSubclassTree();
    LexicalStatusIsNotInherited();
    assert t[0].annotations[0].qualifiedName == SideOnlyAnnoName;
    assert WellFormed(t);
    assert !AnnotatedOnChain(t, 2);
    assert ClientOnlyClass(t, 1);
    assert !ClientOnlyClass(t, 2);
    assert VisitOk(t, 1);
    assert [1][..0] == [];
    assert Classify(t, [1]) == VisitClass(t, Empty, 1);
    assert 1 in Classify(t, [1]).clientOnlyClasses;
    assert ClassInContext(t, Classify(t, [1]).clientOnlyClasses, 1);
  }

  /**
   * Lexical propagation: once its class has been visited, a member of a
   * client-only class is a client-only context, whether or not the member
   * itself is annotated.
   */
  lemma MemberOfClientOnlyClassInContext(t: Tree, v: seq<Id>, m: Id)
    requires WellFormed(t) && VisitsOk(t, v) && m in t && t[m].kind.IsMember()
    requires t[m].containingClass.Some?
    requires t[m].containingClass.value in v && ClientOnlyClass(t, t[m].containingClass.value)
    ensures InContext(t, Classify(t, v), m)
  {
    var p := t[m].containingClass.value;
    ClientOnlyClassesListed(t, v, p);
    assert p in Classify(t, v).clientOnlyClasses;
  }
}
