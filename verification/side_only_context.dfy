/**
 * `SideOnlyContext` as the source has it: an object whose constructor walks
 * the files once, appending to four lists, and then computes the four error
 * lists from them.
 *
 * The walk is given as the sequence of elements in the order the walker
 * reaches them (pre-order); any sequence is accepted, and what is proved
 * holds for every order. The IDE's reference searches are given as a
 * `SearchIndex`.
 */
module SideOnly {
  import opened Psi
  import opened Suppression
  import opened Classification
  import opened Context
  import opened Validator

  class SideOnlyContext {
    const tree: Tree
    const index: SearchIndex

    var clientOnlyClasses: seq<Id>
    var clientOnlyMethods: seq<Id>
    var clientOnlyFields: seq<Id>
    var ignoreSideOnlyMethods: seq<Id>

    var errorClassReference: seq<ErrorItem>
    var errorMethodReferences: seq<ErrorItem>
    var errorFieldReferences: seq<ErrorItem>
    var errorFieldInitializers: seq<Id>

    /** The four lists as one value. */
    function CurrentLists(): Lists
      reads this
    {
      Lists(clientOnlyClasses, clientOnlyMethods, clientOnlyFields, ignoreSideOnlyMethods)
    }

    /**
     * The `init` block followed by the initializers of the four error lists.
     */
    constructor (t: Tree, visits: seq<Id>, idx: SearchIndex)
      requires WellFormed(t) && VisitsOk(t, visits) && IndexOk(t, idx)
      ensures tree == t && index == idx
      ensures CurrentLists() == Classify(t, visits)
      ensures errorClassReference == ErrorClassReference(t, CurrentLists(), idx)
      ensures errorMethodReferences == ErrorMethodReferences(t, CurrentLists(), idx)
      ensures errorFieldReferences == ErrorFieldReferences(t, CurrentLists(), idx)
      ensures forall i :: 0 <= i < |clientOnlyFields| ==> clientOnlyFields[i] in t
      ensures errorFieldInitializers == ErrorFieldInitializers(t, clientOnlyFields)
    {
      tree := t;
      index := idx;
      clientOnlyClasses, clientOnlyMethods, clientOnlyFields, ignoreSideOnlyMethods := [], [], [], [];
      errorClassReference, errorMethodReferences, errorFieldReferences := [], [], [];
      errorFieldInitializers := [];
      new;
      var i := 0;
      while i < |visits|
        invariant 0 <= i <= |visits|
        invariant tree == t && index == idx
        invariant CurrentLists() == Classify(t, visits[..i])
      {
        var e := visits[i];
        assert VisitOk(t, e);
        match tree[e].kind {
          case Class => VisitClass(e);
          case AnonymousClass => VisitAnonymousClass(e);
          case Method => VisitMethod(e);
          case Field => VisitField(e);
          case _ =>
        }
        assert visits[..i + 1][..i] == visits[..i];
        i := i + 1;
      }
      assert visits[..|visits|] == visits;
      ListedFieldsInTree(t, visits);
      errorClassReference := ErrorClassReference(tree, CurrentLists(), index);
      errorMethodReferences := ErrorMethodReferences(tree, CurrentLists(), index);
      errorFieldReferences := ErrorFieldReferences(tree, CurrentLists(), index);
      errorFieldInitializers := ErrorFieldInitializers(tree, clientOnlyFields);
    }

    method VisitClass(c: Id)
      requires WellFormed(tree) && c in tree
      modifies this
      ensures CurrentLists() == Classification.VisitClass(tree, old(CurrentLists()), c)
      ensures errorClassReference == old(errorClassReference)
      ensures errorMethodReferences == old(errorMethodReferences)
      ensures errorFieldReferences == old(errorFieldReferences)
      ensures errorFieldInitializers == old(errorFieldInitializers)
    {
      var clientOnly := IsClientOnlyClass(c);
      if clientOnly {
        clientOnlyClasses := clientOnlyClasses + [c];
      }
    }

    method VisitAnonymousClass(a: Id)
      requires WellFormed(tree) && VisitOk(tree, a) && tree[a].kind.AnonymousClass?
      modifies this
      ensures CurrentLists() == Classification.VisitAnonymousClass(tree, old(CurrentLists()), a)
      ensures errorClassReference == old(errorClassReference)
      ensures errorMethodReferences == old(errorMethodReferences)
      ensures errorFieldReferences == old(errorFieldReferences)
      ensures errorFieldInitializers == old(errorFieldInitializers)
    {
      VisitClass(a);
      var containingClass := tree[a].parentClass.value;
      var clientOnly := IsClientOnlyClass(containingClass);
      if clientOnly {
        clientOnlyClasses := clientOnlyClasses + [a];
        return;
      }
      var containingMethod := tree[a].parentMethod;
      if containingMethod.Some? && HasSideOnly(tree[containingMethod.value]) {
        clientOnlyClasses := clientOnlyClasses + [a];
        return;
      }
    }

    method VisitMethod(m: Id)
      requires VisitOk(tree, m) && tree[m].kind.Method?
      modifies this
      ensures CurrentLists() == Classification.VisitMethod(tree, old(CurrentLists()), m)
      ensures errorClassReference == old(errorClassReference)
      ensures errorMethodReferences == old(errorMethodReferences)
      ensures errorFieldReferences == old(errorFieldReferences)
      ensures errorFieldInitializers == old(errorFieldInitializers)
    {
      if HasSideOnly(tree[m]) {
        clientOnlyMethods := clientOnlyMethods + [m];
      }
      if DoesIgnoreSideOnly(tree[m]) {
        ignoreSideOnlyMethods := ignoreSideOnlyMethods + [m];
      }
    }

    method VisitField(f: Id)
      requires f in tree
      modifies this
      ensures CurrentLists() == Classification.VisitField(tree, old(CurrentLists()), f)
      ensures errorClassReference == old(errorClassReference)
      ensures errorMethodReferences == old(errorMethodReferences)
      ensures errorFieldReferences == old(errorFieldReferences)
      ensures errorFieldInitializers == old(errorFieldInitializers)
    {
      if HasSideOnly(tree[f]) {
        clientOnlyFields := clientOnlyFields + [f];
      }
    }

    /**
     * `isClientOnlyClass`: ask the containing class first, then walk the
     * superclass chain looking for `@SideOnly`.
     */
    method IsClientOnlyClass(c: Id) returns (r: bool)
      requires WellFormed(tree) && c in tree
      ensures r == ClientOnlyClass(tree, c)
      decreases tree[c].depth
    {
      var innerAndParentRemoved := false;
      if tree[c].containingClass.Some? {
        innerAndParentRemoved := IsClientOnlyClass(tree[c].containingClass.value);
      }
      if innerAndParentRemoved {
        return true;
      }
      var cur := c;
      while true
        invariant cur in tree
        invariant AnnotatedOnChain(tree, cur) == AnnotatedOnChain(tree, c)
        decreases tree[cur].superRank
      {
        if HasSideOnly(tree[cur]) {
          return true;
        } else if tree[cur].superClass.Some? {
          cur := tree[cur].superClass.value;
        } else {
          return false;
        }
      }
    }

    /**
     * `isInClientOnlyContext`: a class walks its superclass chain looking for
     * a listed class; a member asks the lists, then its containing class; any
     * other element asks its nearest enclosing member.
     */
    method IsInClientOnlyContext(e: Id) returns (r: bool)
      requires WellFormed(tree) && e in tree
      ensures r == InContext(tree, CurrentLists(), e)
      decreases tree[e].depth
    {
      var kind := tree[e].kind;
      if kind.IsClass() {
        var cur := e;
        while true
          invariant cur in tree
          invariant ClassInContext(tree, clientOnlyClasses, cur) == ClassInContext(tree, clientOnlyClasses, e)
          decreases tree[cur].superRank
        {
          if cur in clientOnlyClasses {
            return true;
          }
          var next := tree[cur].superClass;
          if next.None? {
            break;
          } else {
            cur := next.value;
          }
        }
        return false;
      } else if kind.IsMember() {
        if e in clientOnlyMethods || e in clientOnlyFields {
          return true;
        }
        var containing := tree[e].containingClass;
        if containing.None? {
          return true;
        }
        r := IsInClientOnlyContext(containing.value);
      } else {
        var parent := tree[e].parentMember;
        if parent.None? {
          return true;
        }
        r := IsInClientOnlyContext(parent.value);
      }
    }
  }
}
