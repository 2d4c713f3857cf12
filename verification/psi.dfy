/**
 * The part of IntelliJ's PSI (program structure interface) tree that the
 * side-only check consults, abstracted to plain values.
 *
 * Every element of the analysed Java files has an `Id`. The tree is a map
 * from ids to `Element`s; an element records its kind, its annotations and
 * the handful of relations the check asks of the PSI: the superclass, the
 * containing class, and the nearest enclosing class, method and member that
 * `PsiTreeUtil.getParentOfType` would return.
 */
module Psi {

  datatype Option<+T> = None | Some(value: T)

  type Id = nat

  /** Qualified name of the annotation that marks a declaration client-only. */
  const SideOnlyAnnoName: string := "net.minecraftforge.fml.relauncher.SideOnly"

  /**
   * The kinds of element the check tells apart. `Class` is every element
   * whose visit reaches `visitClass` alone; `AnonymousClass` every element
   * whose visit reaches `visitAnonymousClass`. `Method`, `Field` and
   * `ClassInitializer` are the `PsiMember`s that are not classes; `Other`
   * is everything else (expressions, statements, references, imports, ...).
   */
  datatype Kind = Class | AnonymousClass | Method | Field | ClassInitializer | Other
  {
    predicate IsClass() { Class? || AnonymousClass? }
    predicate IsMember() { Method? || Field? || ClassInitializer? }
  }

  /** One attribute of an annotation; `literalValue` is absent when the value is not a string literal. */
  datatype NameValuePair = NameValuePair(literalValue: Option<string>)

  /** An annotation; `parameterList` is the annotation's parameter-list child, if the tree has one. */
  datatype Annotation = Annotation(qualifiedName: string, parameterList: Option<seq<NameValuePair>>)

  /**
   * One PSI element.
   * - `superClass`: `PsiClass.superClass` (classes only);
   * - `containingClass`: `PsiClass.containingClass` / `PsiMember.containingClass`;
   * - `parentClass`, `parentMethod`, `parentMember`: the nearest strict
   *   ancestor that is a class, a method, a member (a class counts as a member);
   * - `inComment`: some strict ancestor is a comment;
   * - `hasInitializer`: a field declared with an initializer expression.
   * `depth` (the element's depth in its file) and `superRank` (a bound on the
   * length of the superclass chain above it) are not consulted by any decision:
   * they witness that the tree relations and the inheritance graph are acyclic.
   */
  datatype Element = Element(
    kind: Kind,
    annotations: seq<Annotation>,
    superClass: Option<Id>,
    containingClass: Option<Id>,
    parentClass: Option<Id>,
    parentMethod: Option<Id>,
    parentMember: Option<Id>,
    inComment: bool,
    hasInitializer: bool,
    depth: nat,
    superRank: nat)

  type Tree = map<Id, Element>

  /** `p`, when present, is an element of `t` lying strictly above `e`. */
  predicate Above(t: Tree, p: Option<Id>, e: Element)
  {
    p.Some? ==> p.value in t && t[p.value].depth < e.depth
  }

  /** The relations of `e` point at elements of `t` of the kinds the PSI guarantees. */
  predicate ElementOk(t: Tree, e: Element)
  {
    && (e.superClass.Some? ==>
          e.superClass.value in t && t[e.superClass.value].kind.IsClass()
          && t[e.superClass.value].superRank < e.superRank)
    && Above(t, e.containingClass, e)
    && (e.containingClass.Some? ==> t[e.containingClass.value].kind.IsClass())
    && Above(t, e.parentClass, e)
    && (e.parentClass.Some? ==> t[e.parentClass.value].kind.IsClass())
    && Above(t, e.parentMethod, e)
    && (e.parentMethod.Some? ==> t[e.parentMethod.value].kind.Method?)
    && Above(t, e.parentMember, e)
    && (e.parentMember.Some? ==>
          t[e.parentMember.value].kind.IsClass() || t[e.parentMember.value].kind.IsMember())
  }

  /** Every element of the tree is well formed: in particular, superclass chains are finite. */
  predicate WellFormed(t: Tree)
  {
    forall id :: id in t ==> ElementOk(t, t[id])
  }

  /** `hasAnnotation(name)`: the modifier list holds an annotation with that qualified name. */
  predicate HasAnnotation(e: Element, name: string)
  {
    exists i :: 0 <= i < |e.annotations| && e.annotations[i].qualifiedName == name
  }

  predicate HasSideOnly(e: Element)
  {
    HasAnnotation(e, SideOnlyAnnoName)
  }

  /** Position `i` holds the first annotation named `name`. */
  predicate FirstNamed(anns: seq<Annotation>, name: string, i: nat)
  {
    i < |anns| && anns[i].qualifiedName == name
    && forall j :: 0 <= j < i ==> anns[j].qualifiedName != name
  }

  /** `getAnnotation(name)`: the first annotation with that qualified name, if any. */
  function FindAnnotation(anns: seq<Annotation>, name: string): (r: Option<Annotation>)
    ensures r.None? <==> forall i :: 0 <= i < |anns| ==> anns[i].qualifiedName != name
    ensures r.Some? ==> exists i: nat :: FirstNamed(anns, name, i) && anns[i] == r.value
  {
    if anns == [] then None
    else if anns[0].qualifiedName == name then
      assert FirstNamed(anns, name, 0);
      Some(anns[0])
    else
      var r := FindAnnotation(anns[1..], name);
      assert r.Some? ==> exists i: nat :: FirstNamed(anns, name, i) && anns[i] == r.value by {
        if r.Some? {
          var i: nat :| FirstNamed(anns[1..], name, i) && anns[1..][i] == r.value;
          assert FirstNamed(anns, name, i + 1) by {
            forall j | 0 <= j < i + 1 ensures anns[j].qualifiedName != name {
              if j > 0 { assert anns[j] == anns[1..][j - 1]; }
            }
          }
        }
      }
      r
  }
}
