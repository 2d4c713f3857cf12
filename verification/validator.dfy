/**
 * The four error lists of `SideOnlyContext`.
 *
 * For each listed class, method and field the reference search yields the
 * places that mention it; each (reference, symbol) pair becomes an error
 * item, and three filters in a row drop the pairs whose reference lies in a
 * comment, lies in a client-only context, or lies in a method that
 * suppresses the check. A fourth list holds the listed fields that have an
 * initializer.
 *
 * The reference search itself belongs to the IDE's index; here it is an
 * input, `SearchIndex`.
 */
module Validator {
  import opened Psi
  import opened Suppression
  import opened Classification
  import opened Context

  /** A `PsiReference`: the element at which the symbol is mentioned. */
  datatype Ref = Ref(element: Id)

  /** `ClassErrorItem`, `MethodErrorItem` and `FieldErrorItem`. */
  datatype ErrorItem =
    | ClassErrorItem(ref: Ref, klass: Id)
    | MethodErrorItem(ref: Ref, meth: Id)
    | FieldErrorItem(ref: Ref, field: Id)
  {
    function Symbol(): Id
    {
      match this
      case ClassErrorItem(_, k) => k
      case MethodErrorItem(_, m) => m
      case FieldErrorItem(_, f) => f
    }
  }

  /**
   * The results of the IDE's searches: `references` for `ReferencesSearch`
   * (classes and fields), `methodReferences` for `MethodReferencesSearch`
   * with strict signatures (methods and the methods overriding them).
   * A symbol without an entry has no references.
   */
  datatype SearchIndex = SearchIndex(references: map<Id, seq<Ref>>, methodReferences: map<Id, seq<Ref>>)

  /** Every reference the searches return points into the tree. */
  predicate IndexOk(t: Tree, idx: SearchIndex)
  {
    && (forall s, i :: s in idx.references && 0 <= i < |idx.references[s]| ==>
          idx.references[s][i].element in t)
    && (forall s, i :: s in idx.methodReferences && 0 <= i < |idx.methodReferences[s]| ==>
          idx.methodReferences[s][i].element in t)
  }

  datatype SymbolKind = ClassSymbol | MethodSymbol | FieldSymbol

  function Lookup(m: map<Id, seq<Ref>>, s: Id): seq<Ref>
  {
    if s in m then m[s] else []
  }

  /** The search the source runs for a symbol of kind `k`. */
  function Search(idx: SearchIndex, k: SymbolKind, s: Id): seq<Ref>
  {
    if k == MethodSymbol then Lookup(idx.methodReferences, s) else Lookup(idx.references, s)
  }

  /** The item class for a symbol of kind `k`: it pairs the reference with the symbol. */
  function MakeItem(k: SymbolKind, r: Ref, s: Id): (x: ErrorItem)
    ensures ItemOfKind(k, x) && x.ref == r && x.Symbol() == s
  {
    match k
    case ClassSymbol => ClassErrorItem(r, s)
    case MethodSymbol => MethodErrorItem(r, s)
    case FieldSymbol => FieldErrorItem(r, s)
  }

  predicate ItemOfKind(k: SymbolKind, x: ErrorItem)
  {
    match k
    case ClassSymbol => x.ClassErrorItem?
    case MethodSymbol => x.MethodErrorItem?
    case FieldSymbol => x.FieldErrorItem?
  }

  /** The `flatMap`: for each symbol in order, one item per reference the search finds, in order. */
  function Candidates(idx: SearchIndex, k: SymbolKind, symbols: seq<Id>): (r: seq<ErrorItem>)
    ensures forall x :: x in r ==>
      ItemOfKind(k, x) && x.Symbol() in symbols && x.ref in Search(idx, k, x.Symbol())
  {
    if symbols == [] then []
    else
      var s := symbols[0];
      var refs := Search(idx, k, s);
      var here := seq(|refs|, i requires 0 <= i < |refs| => MakeItem(k, refs[i], s));
      var rest := Candidates(idx, k, symbols[1..]);
      assert forall x :: x in rest ==> x.Symbol() in symbols by {
        forall x | x in rest ensures x.Symbol() in symbols {
          assert x.Symbol() in symbols[1..];
        }
      }
      here + rest
  }

  /** Every item's reference points into the tree. */
  predicate RefsInTree(t: Tree, items: seq<ErrorItem>)
  {
    forall x :: x in items ==> x.ref.element in t
  }

  /** The three `.filter` conditions. */
  datatype Condition = NotInComment | NotInClientOnlyContext | NotInSuppressingMethod

  predicate Holds(t: Tree, l: Lists, c: Condition, x: ErrorItem)
    requires WellFormed(t) && x.ref.element in t
  {
    var e := x.ref.element;
    match c
    case NotInComment => !t[e].inComment
    case NotInClientOnlyContext => !InContext(t, l, e)
    case NotInSuppressingMethod =>
      t[e].parentMethod.None? || t[e].parentMethod.value !in l.ignoreSideOnlyMethods
  }

  /** One `.filter { ... }` step. */
  function FilterBy(t: Tree, l: Lists, c: Condition, items: seq<ErrorItem>): (r: seq<ErrorItem>)
    requires WellFormed(t) && RefsInTree(t, items)
    ensures forall x :: x in r ==> x in items && Holds(t, l, c, x)
  {
    if items == [] then []
    else
      var rest := FilterBy(t, l, c, items[1..]);
      if Holds(t, l, c, items[0]) then [items[0]] + rest else rest
  }

  /** All three conditions hold: the reference is reported. */
  predicate Flagged(t: Tree, l: Lists, x: ErrorItem)
    requires WellFormed(t) && x.ref.element in t
  {
    Holds(t, l, NotInComment, x) && Holds(t, l, NotInClientOnlyContext, x)
    && Holds(t, l, NotInSuppressingMethod, x)
  }

  /** The reference definition: keep, in order, the items that are flagged. */
  function KeepFlagged(t: Tree, l: Lists, items: seq<ErrorItem>): seq<ErrorItem>
    requires WellFormed(t) && RefsInTree(t, items)
  {
    if items == [] then []
    else if Flagged(t, l, items[0]) then [items[0]] + KeepFlagged(t, l, items[1..])
    else KeepFlagged(t, l, items[1..])
  }

  lemma CandidatesInTree(t: Tree, idx: SearchIndex, k: SymbolKind, symbols: seq<Id>)
    requires IndexOk(t, idx)
    ensures RefsInTree(t, Candidates(idx, k, symbols))
  {
    forall x | x in Candidates(idx, k, symbols) ensures x.ref.element in t {
      var refs := Search(idx, k, x.Symbol());
      var i :| 0 <= i < |refs| && refs[i] == x.ref;
    }
  }

  /** One error list: the candidates, filtered by comment, by context, by suppression. */
  function ReferenceErrors(t: Tree, l: Lists, idx: SearchIndex, k: SymbolKind, symbols: seq<Id>)
    : (r: seq<ErrorItem>)
    requires WellFormed(t) && IndexOk(t, idx)
    ensures forall x :: x in r ==>
      x in Candidates(idx, k, symbols) && x.ref.element in t && Flagged(t, l, x)
  {
    var candidates := Candidates(idx, k, symbols);
    CandidatesInTree(t, idx, k, symbols);
    var notInComment := FilterBy(t, l, NotInComment, candidates);
    var notInContext := FilterBy(t, l, NotInClientOnlyContext, notInComment);
    FilterBy(t, l, NotInSuppressingMethod, notInContext)
  }

  /** `errorClassReference`: references to client-only classes from code that is not client-only. */
  function ErrorClassReference(t: Tree, l: Lists, idx: SearchIndex): (r: seq<ErrorItem>)
    requires WellFormed(t) && IndexOk(t, idx)
    ensures forall x :: x in r ==>
      && x.ClassErrorItem? && x.klass in l.clientOnlyClasses
      && x.ref in Lookup(idx.references, x.klass)
      && x.ref.element in t && Flagged(t, l, x)
  {
    ReferenceErrors(t, l, idx, ClassSymbol, l.clientOnlyClasses)
  }

  /** `errorMethodReferences`: calls of client-only methods from code that is not client-only. */
  function ErrorMethodReferences(t: Tree, l: Lists, idx: SearchIndex): (r: seq<ErrorItem>)
    requires WellFormed(t) && IndexOk(t, idx)
    ensures forall x :: x in r ==>
      && x.MethodErrorItem? && x.meth in l.clientOnlyMethods
      && x.ref in Lookup(idx.methodReferences, x.meth)
      && x.ref.element in t && Flagged(t, l, x)
  {
    ReferenceErrors(t, l, idx, MethodSymbol, l.clientOnlyMethods)
  }

  /** `errorFieldReferences`: uses of client-only fields from code that is not client-only. */
  function ErrorFieldReferences(t: Tree, l: Lists, idx: SearchIndex): (r: seq<ErrorItem>)
    requires WellFormed(t) && IndexOk(t, idx)
    ensures forall x :: x in r ==>
      && x.FieldErrorItem? && x.field in l.clientOnlyFields
      && x.ref in Lookup(idx.references, x.field)
      && x.ref.element in t && Flagged(t, l, x)
  {
    ReferenceErrors(t, l, idx, FieldSymbol, l.clientOnlyFields)
  }

  /** `clientOnlyFields.filter { it.hasInitializer() }`. */
  function ErrorFieldInitializers(t: Tree, fields: seq<Id>): (r: seq<Id>)
    requires forall i :: 0 <= i < |fields| ==> fields[i] in t
    ensures forall f :: f in r <==> f in fields && t[f].hasInitializer
  {
    if fields == [] then []
    else
      var rest := ErrorFieldInitializers(t, fields[1..]);
      if t[fields[0]].hasInitializer then [fields[0]] + rest else rest
  }

  // ---------------------------------------------------------------------------
  // Properties

  /** The three filters in a row keep exactly what the single conjunctive filter keeps, in the same order. */
  lemma {:induction false} ThreeFiltersAreOne(t: Tree, l: Lists, items: seq<ErrorItem>)
    requires WellFormed(t) && RefsInTree(t, items)
    ensures
      var a := FilterBy(t, l, NotInComment, items);
      var b := FilterBy(t, l, NotInClientOnlyContext, a);
      FilterBy(t, l, NotInSuppressingMethod, b) == KeepFlagged(t, l, items)
  {
    if items != [] {
      assert RefsInTree(t, items[1..]);
      ThreeFiltersAreOne(t, l, items[1..]);
    }
  }

  /**
   * The reference definition drops nothing it should keep: an item occurs in
   * the result exactly as often as in the input when flagged, and not at all
   * otherwise.
   */
  lemma {:induction false} KeepFlaggedCounts(t: Tree, l: Lists, items: seq<ErrorItem>, x: ErrorItem)
    requires WellFormed(t) && RefsInTree(t, items) && x.ref.element in t
    ensures multiset(KeepFlagged(t, l, items))[x] ==
      if Flagged(t, l, x) then multiset(items)[x] else 0
  {
    if items != [] {
      assert RefsInTree(t, items[1..]);
      KeepFlaggedCounts(t, l, items[1..], x);
      assert items == [items[0]] + items[1..];
    }
  }

  /**
   * An item is in an error list iff its symbol is listed, the search for that
   * symbol returned its reference, and the reference is outside comments,
   * outside client-only contexts and outside suppressing methods.
   */
  lemma ReferenceErrorsExact(t: Tree, l: Lists, idx: SearchIndex, k: SymbolKind, symbols: seq<Id>,
                             x: ErrorItem)
    requires WellFormed(t) && IndexOk(t, idx)
    ensures x in ReferenceErrors(t, l, idx, k, symbols) <==>
      && ItemOfKind(k, x) && x.Symbol() in symbols && x.ref in Search(idx, k, x.Symbol())
      && x.ref.element in t && Flagged(t, l, x)
  {
    var candidates := Candidates(idx, k, symbols);
    CandidatesInTree(t, idx, k, symbols);
    ThreeFiltersAreOne(t, l, candidates);
    if ItemOfKind(k, x) && x.Symbol() in symbols && x.ref in Search(idx, k, x.Symbol())
       && x.ref.element in t {
      CandidatesComplete(idx, k, symbols, x);
    }
    if x.ref.element in t {
      KeepFlaggedCounts(t, l, candidates, x);
    }
  }

  /** Every (reference, symbol) pair the searches yield is a candidate. */
  lemma {:induction false} CandidatesComplete(idx: SearchIndex, k: SymbolKind, symbols: seq<Id>,
                                              x: ErrorItem)
    requires ItemOfKind(k, x) && x.Symbol() in symbols && x.ref in Search(idx, k, x.Symbol())
    ensures x in Candidates(idx, k, symbols)
  {
    var s := symbols[0];
    var refs := Search(idx, k, s);
    var here := seq(|refs|, i requires 0 <= i < |refs| => MakeItem(k, refs[i], s));
    if x.Symbol() == s {
      var i :| 0 <= i < |refs| && refs[i] == x.ref;
      assert here[i] == x;
    } else {
      CandidatesComplete(idx, k, symbols[1..], x);
    }
  }

  /** Each error list keeps every occurrence of a flagged candidate and nothing else, in search order. */
  lemma ReferenceErrorsKeepOrder(t: Tree, l: Lists, idx: SearchIndex, k: SymbolKind, symbols: seq<Id>)
    requires WellFormed(t) && IndexOk(t, idx)
    ensures RefsInTree(t, Candidates(idx, k, symbols))
    ensures ReferenceErrors(t, l, idx, k, symbols) == KeepFlagged(t, l, Candidates(idx, k, symbols))
  {
    CandidatesInTree(t, idx, k, symbols);
    ThreeFiltersAreOne(t, l, Candidates(idx, k, symbols));
  }

  /** A reference inside a comment is never reported. */
  lemma CommentedReferenceNotReported(t: Tree, l: Lists, idx: SearchIndex, k: SymbolKind,
                                      symbols: seq<Id>, x: ErrorItem)
    requires WellFormed(t) && IndexOk(t, idx) && x.ref.element in t && t[x.ref.element].inComment
    ensures x !in ReferenceErrors(t, l, idx, k, symbols)
  {
    ReferenceErrorsExact(t, l, idx, k, symbols, x);
  }

  /** A reference inside a method that suppresses the check is never reported. */
  lemma SuppressedReferenceNotReported(t: Tree, v: seq<Id>, idx: SearchIndex, k: SymbolKind,
                                       symbols: seq<Id>, x: ErrorItem)
    requires WellFormed(t) && VisitsOk(t, v) && IndexOk(t, idx) && x.ref.element in t
    requires t[x.ref.element].parentMethod.Some?
    requires t[x.ref.element].parentMethod.value in v
    requires DoesIgnoreSideOnly(t[t[x.ref.element].parentMethod.value])
    ensures x !in ReferenceErrors(t, Classify(t, v), idx, k, symbols)
  {
    ReferenceErrorsExact(t, Classify(t, v), idx, k, symbols, x);
    SuppressingMethodsListed(t, v, t[x.ref.element].parentMethod.value);
  }

  /** A reference outside every member (an import, say) is never reported. */
  lemma OrphanReferenceNotReported(t: Tree, l: Lists, idx: SearchIndex, k: SymbolKind,
                                   symbols: seq<Id>, x: ErrorItem)
    requires WellFormed(t) && IndexOk(t, idx) && x.ref.element in t
    requires !t[x.ref.element].kind.IsClass() && !t[x.ref.element].kind.IsMember()
    requires t[x.ref.element].parentMember.None?
    ensures x !in ReferenceErrors(t, l, idx, k, symbols)
  {
    ReferenceErrorsExact(t, l, idx, k, symbols, x);
  }

  /** The client-only fields of a walk that have an initializer, in visit order. */
  function InitializedSideOnlyFields(t: Tree, v: seq<Id>): seq<Id>
    requires forall i :: 0 <= i < |v| ==> v[i] in t
  {
    if v == [] then []
    else
      var f := v[|v| - 1];
      var rest := InitializedSideOnlyFields(t, v[..|v| - 1]);
      if t[f].kind.Field? && HasSideOnly(t[f]) && t[f].hasInitializer then rest + [f] else rest
  }

  /** Listed fields are visited elements, so they are in the tree. */
  lemma {:induction false} ListedFieldsInTree(t: Tree, v: seq<Id>)
    requires WellFormed(t) && VisitsOk(t, v)
    ensures forall i :: 0 <= i < |Classify(t, v).clientOnlyFields| ==>
      Classify(t, v).clientOnlyFields[i] in t
  {
    forall i | 0 <= i < |Classify(t, v).clientOnlyFields|
      ensures Classify(t, v).clientOnlyFields[i] in t
    {
      ClientOnlyFieldsListed(t, v, Classify(t, v).clientOnlyFields[i]);
    }
  }

  lemma {:induction false} InitializersAppend(t: Tree, fs: seq<Id>, f: Id)
    requires forall i :: 0 <= i < |fs| ==> fs[i] in t
    requires f in t
    ensures ErrorFieldInitializers(t, fs + [f]) ==
      ErrorFieldInitializers(t, fs) + (if t[f].hasInitializer then [f] else [])
  {
    if fs != [] {
      assert (fs + [f])[1..] == fs[1..] + [f];
      InitializersAppend(t, fs[1..], f);
    }
  }

  /**
   * The initializer list is exactly the visited fields that carry `@SideOnly`
   * and have an initializer, in visit order, whatever the reference search says.
   */
  lemma {:induction false} InitializerErrorsExact(t: Tree, v: seq<Id>)
    requires WellFormed(t) && VisitsOk(t, v)
    ensures forall i :: 0 <= i < |Classify(t, v).clientOnlyFields| ==>
      Classify(t, v).clientOnlyFields[i] in t
    ensures ErrorFieldInitializers(t, Classify(t, v).clientOnlyFields) == InitializedSideOnlyFields(t, v)
  {
    ListedFieldsInTree(t, v);
    if v != [] {
      var w := v[..|v| - 1];
      var f := v[|v| - 1];
      SplitLast(t, v);
      InitializerErrorsExact(t, w);
      ListedFieldsInTree(t, w);
      if t[f].kind.Field? && HasSideOnly(t[f]) {
        InitializersAppend(t, Classify(t, w).clientOnlyFields, f);
      }
    }
  }
}
