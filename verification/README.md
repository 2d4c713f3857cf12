# SideOnlyChecker core, modelled in Dafny

SideOnlyChecker is an IntelliJ plugin for Minecraft Forge mods. Forge marks
declarations that exist only on the client with
`@net.minecraftforge.fml.relauncher.SideOnly`; code that may also run on a
dedicated server must not touch them. The plugin's `SideOnlyContext` class
does the work, and this project models it:

1. **Classifier.** One walk over the Java files fills four lists:
   - the client-only classes. A class is client-only when its containing
     class is client-only, or when some class on its superclass chain carries
     the annotation. An anonymous class is also client-only when its
     enclosing class is client-only or its enclosing method is annotated.
   - the client-only methods and the client-only fields. These are exactly
     the annotated ones.
   - the methods that carry `@SuppressWarnings("SIDEONLY")`, with the
     keyword compared ignoring case.
2. **Context decision.** `isInClientOnlyContext` decides whether code at an
   element already runs client-only. For a class, it looks for a listed class
   on the superclass chain. For a member, it checks the lists and then asks the
   containing class. For any other element, it asks the nearest enclosing
   member.
3. **Error lists.** Each listed class, method and field is paired with every
   reference the IDE's search finds for it. Three filters drop:
   - references inside comments,
   - references in a client-only context,
   - references inside a suppressing method.

   A fourth list holds the client-only fields that have an initializer.

Modules:

- `Psi` (psi.dfy) abstracts the PSI tree as a map from element ids to
  elements. It also holds the annotation queries.
- `Suppression` (suppression.dfy) models `doesIgnoreSideOnly` and the JVM's
  case-insensitive comparison with the keyword.
- `Classification` (classification.dfy) holds `isClientOnlyClass` as a
  specification, the visitor's actions, and `Classify`, the lists after a
  walk.
- `Context` (context.dfy) models `isInClientOnlyContext` as a specification.
- `Validator` (validator.dfy) holds the four error lists as the source's
  `flatMap`/`filter` pipelines.
- `SideOnly` (side_only_context.dfy) is the class `SideOnlyContext`:
  - its constructor runs the visitor loop over `seq` fields;
  - `IsClientOnlyClass` and `IsInClientOnlyContext` keep the source's
    `while (true)` chain walks, with loop invariants;
  - each of these is proved equal to the specification functions above.

Inputs that the source gets from the IDE are parameters of the model:

- the tree (`Psi.Tree`);
- the order in which the walker reaches the elements (`visits`; any order,
  repeats included, is accepted);
- the results of `ReferencesSearch` and `MethodReferencesSearch`
  (`Validator.SearchIndex`).

Behaviour of the code that the model reproduces deliberately:

- A member with no containing class is treated as *in* client-only context
  (line 151), so references from it are not reported.
- An element with no enclosing member is also treated as in context
  (line 159).
- Client-only status inherited through the superclass chain comes only from
  annotations. A class that is client-only only because of its containing
  class does not pass that status to its subclasses
  (`Classification.LexicalStatusIsNotInherited`). The context decision is
  different: `isInClientOnlyContext` walks a class's superclass chain against
  the list of client-only classes (`Context.ClassContextIff`). So once such an
  inner class is listed, code in its subclasses is in client-only context even
  though the subclasses are not client-only themselves
  (`Context.SubclassOfListedInnerClassInContext`).
- Being inside a client-only class does not make a method or field
  client-only.
- The superclass walk has no visited-set guard. The model requires an acyclic
  inheritance graph (`superRank` decreases along `superClass`).
- `super.visitAnonymousClass` runs the overridden `visitClass`, so an
  anonymous class can be appended to `clientOnlyClasses` twice
  (`Classification.AnonymousClassMayBeListedTwice`). Membership tests do not
  change. The duplicate stays out of the error lists only if the reference
  search returns nothing for an anonymous class. That is an assumption about
  the search, and the model does not enforce it. If `Validator.SearchIndex`
  has references for an anonymous class that is listed twice,
  `Validator.Candidates` emits each of them twice.

## Model

| member | source | states |
|---|---|---|
| `Suppression.DoesIgnoreSideOnly` | src/main/kotlin/com/weathfold/soc/SideOnlyContext.kt:123-131 | Suppression only happens when the method carries `@SuppressWarnings` and an annotation of that name has an attribute literal equal to the keyword ignoring case. `SuppressionIff` gives the converse. |
| `Suppression.KeywordMatchesExactly` | src/main/kotlin/com/weathfold/soc/SideOnlyContext.kt:127 | An attribute literal matches iff it has eight characters and each one is a case variant of the corresponding letter of "SIDEONLY". The JVM also accepts dotless i, dotted capital I and long s. |
| `Suppression.KeywordExamples` | src/main/kotlin/com/weathfold/soc/SideOnlyContext.kt:127 | "sideonly", "SideOnly" and "SIDEONLY" match. "SIDE_ONLY", "" and a non-literal value (`null`) do not. |
| `Suppression.SuppressionIff` | src/main/kotlin/com/weathfold/soc/SideOnlyContext.kt:123-131 | A method whose one `@SuppressWarnings` has a parameter list suppresses the check iff some attribute literal equals the keyword ignoring case. |
| `Suppression.NoAnnotationNoSuppression` | src/main/kotlin/com/weathfold/soc/SideOnlyContext.kt:124-130 | A method without `@SuppressWarnings` never suppresses. |
| `Classification.AnnotatedOnChainIff` | src/main/kotlin/com/weathfold/soc/SideOnlyContext.kt:105-115 | The superclass loop of `isClientOnlyClass` returns true iff some class on the superclass chain, the class itself included, carries `@SideOnly`. |
| `Classification.ClientOnlyClassIff` | src/main/kotlin/com/weathfold/soc/SideOnlyContext.kt:100-117 | A class is client-only iff some class that lexically contains it, itself included, has an annotated class on its superclass chain. |
| `Classification.AnnotatedAncestorMakesClientOnly` | src/main/kotlin/com/weathfold/soc/SideOnlyContext.kt:105-115 | Annotating any ancestor makes every descendant client-only, however long the chain. |
| `Classification.LexicalStatusIsNotInherited` | src/main/kotlin/com/weathfold/soc/SideOnlyContext.kt:100-117 | There is a well-formed tree with an inner class of an annotated class that is client-only, whose top-level subclass is not. |
| `Classification.ClientOnlyClassesListed` | src/main/kotlin/com/weathfold/soc/SideOnlyContext.kt:31-58 | After the walk, a class is listed iff it was visited and either `isClientOnlyClass` holds, or it is anonymous and its enclosing class is client-only or its enclosing method is annotated. |
| `Classification.ClientOnlyMethodsListed` | src/main/kotlin/com/weathfold/soc/SideOnlyContext.kt:37-40 | A method is listed iff it was visited and carries `@SideOnly`. Its class's status plays no part. |
| `Classification.ClientOnlyFieldsListed` | src/main/kotlin/com/weathfold/soc/SideOnlyContext.kt:61-65 | A field is listed iff it was visited and carries `@SideOnly`. Its class's status plays no part. |
| `Classification.SuppressingMethodsListed` | src/main/kotlin/com/weathfold/soc/SideOnlyContext.kt:41-42 | A method is listed as suppressing iff it was visited and `doesIgnoreSideOnly` holds of it. |
| `Classification.AnonymousClassMayBeListedTwice` | src/main/kotlin/com/weathfold/soc/SideOnlyContext.kt:45-58 | There is a well-formed tree in which visiting one anonymous class appends it twice. |
| `Context.ClassContextIff` | src/main/kotlin/com/weathfold/soc/SideOnlyContext.kt:135-147 | A class is in context iff some class on its superclass chain, itself included, is listed. It is not in context when the chain ends without one. |
| `Context.MemberContextIff` | src/main/kotlin/com/weathfold/soc/SideOnlyContext.kt:148-152 | A member is in context iff it is a listed method or field, or it has no containing class, or a listed class lies on its containing class's superclass chain. |
| `Context.OtherContextIff` | src/main/kotlin/com/weathfold/soc/SideOnlyContext.kt:156-160 | Any other element is in context iff it has no enclosing member, or its nearest enclosing member (a class or a member) is in context by the two rules above. |
| `Context.OrphanMemberInContext` | src/main/kotlin/com/weathfold/soc/SideOnlyContext.kt:151 | A member with no containing class is in context. |
| `Context.OrphanElementInContext` | src/main/kotlin/com/weathfold/soc/SideOnlyContext.kt:157-159 | An element with no enclosing member is in context. |
| `Context.AnnotatedAncestorGivesContext` | src/main/kotlin/com/weathfold/soc/SideOnlyContext.kt:135-147 | Once the walk has visited a class, an annotated class anywhere on its superclass chain makes it a client-only context. This holds even if the annotated ancestor was never visited, for example a library class. |
| `Context.SubclassOfListedInnerClassInContext` | src/main/kotlin/com/weathfold/soc/SideOnlyContext.kt:135-147 | In the nested-class example, the top-level subclass of a visited inner class of an annotated class is not client-only, yet it is a client-only context, because the class branch walks the superclass chain against the list. |
| `Context.MemberOfClientOnlyClassInContext` | src/main/kotlin/com/weathfold/soc/SideOnlyContext.kt:148-152 | Once its class has been visited, a member of a client-only class is in context, whether or not it is annotated itself. |
| `Validator.MakeItem` | src/main/kotlin/com/weathfold/soc/SideOnlyContext.kt:11-13 | Builds `ClassErrorItem`, `MethodErrorItem` or `FieldErrorItem` according to the symbol's kind. The item holds the given reference and the given symbol. |
| `Validator.ErrorClassReference` | src/main/kotlin/com/weathfold/soc/SideOnlyContext.kt:70-77 | Every item is a class item of a listed class, for a reference that `ReferencesSearch` returned for it, and passes all three filters. `ReferenceErrorsExact` gives the converse. |
| `Validator.ErrorMethodReferences` | src/main/kotlin/com/weathfold/soc/SideOnlyContext.kt:79-86 | Every item is a method item of a listed method, for a reference that `MethodReferencesSearch` returned for it, and passes all three filters. `ReferenceErrorsExact` gives the converse. |
| `Validator.ErrorFieldReferences` | src/main/kotlin/com/weathfold/soc/SideOnlyContext.kt:88-95 | Every item is a field item of a listed field, for a reference that `ReferencesSearch` returned for it, and passes all three filters. `ReferenceErrorsExact` gives the converse. |
| `Validator.ErrorFieldInitializers` | src/main/kotlin/com/weathfold/soc/SideOnlyContext.kt:97-98 | A field is in the list iff it is a listed client-only field that has an initializer. |
| `Validator.Candidates` | src/main/kotlin/com/weathfold/soc/SideOnlyContext.kt:71 | Every item of the `flatMap` has the right kind, a listed symbol, and a reference that the search returned for that symbol. |
| `Validator.CandidatesComplete` | src/main/kotlin/com/weathfold/soc/SideOnlyContext.kt:71 | Every reference that the search returns for a listed symbol becomes a candidate item. |
| `Validator.FilterBy` | src/main/kotlin/com/weathfold/soc/SideOnlyContext.kt:72-77 | A `filter` step keeps only input items that satisfy its condition. |
| `Validator.ThreeFiltersAreOne` | src/main/kotlin/com/weathfold/soc/SideOnlyContext.kt:72-77 | The comment, context and suppression filters applied in a row equal the single in-order filter on their conjunction. |
| `Validator.KeepFlaggedCounts` | src/main/kotlin/com/weathfold/soc/SideOnlyContext.kt:70-95 | The in-order filter keeps every occurrence of a flagged item and no occurrence of any other item. |
| `Validator.ReferenceErrorsKeepOrder` | src/main/kotlin/com/weathfold/soc/SideOnlyContext.kt:70-95 | Each reference error list is the in-order subsequence of the candidate pairs that are flagged. |
| `Validator.ReferenceErrorsExact` | src/main/kotlin/com/weathfold/soc/SideOnlyContext.kt:70-95 | An item is in an error list iff its symbol is listed, the search returned its reference, and the reference is outside comments, outside client-only context, and not inside a suppressing method. |
| `Validator.CommentedReferenceNotReported` | src/main/kotlin/com/weathfold/soc/SideOnlyContext.kt:119-121 | A reference inside a comment is never reported. |
| `Validator.SuppressedReferenceNotReported` | src/main/kotlin/com/weathfold/soc/SideOnlyContext.kt:74-77 | A reference whose nearest enclosing method was visited and suppresses the check is never reported. |
| `Validator.OrphanReferenceNotReported` | src/main/kotlin/com/weathfold/soc/SideOnlyContext.kt:156-160 | A reference outside every member, such as an import, is never reported. |
| `Validator.InitializerErrorsExact` | src/main/kotlin/com/weathfold/soc/SideOnlyContext.kt:97-98 | The initializer list is exactly the visited annotated fields that have an initializer, in visit order. It does not depend on the reference search. |
| `SideOnly.SideOnlyContext.constructor` | src/main/kotlin/com/weathfold/soc/SideOnlyContext.kt:29-98 | The visitor loop leaves the four lists equal to `Classify` of the walk. The error lists are the four pipelines over those lists. |
| `SideOnly.SideOnlyContext.VisitClass` | src/main/kotlin/com/weathfold/soc/SideOnlyContext.kt:31-35 | Appends the class iff `isClientOnlyClass` holds, and changes nothing else. |
| `SideOnly.SideOnlyContext.VisitAnonymousClass` | src/main/kotlin/com/weathfold/soc/SideOnlyContext.kt:45-59 | Runs `visitClass` first. It then appends the class if its enclosing class is client-only or its enclosing method is annotated. That is a second append if `visitClass` already added it. |
| `SideOnly.SideOnlyContext.VisitMethod` | src/main/kotlin/com/weathfold/soc/SideOnlyContext.kt:37-43 | Appends the method to the client-only list iff annotated. Independently, appends it to the suppressing list iff it suppresses. |
| `SideOnly.SideOnlyContext.VisitField` | src/main/kotlin/com/weathfold/soc/SideOnlyContext.kt:61-65 | Appends the field iff annotated. |
| `SideOnly.SideOnlyContext.IsClientOnlyClass` | src/main/kotlin/com/weathfold/soc/SideOnlyContext.kt:100-117 | The recursion plus the `while (true)` loop returns exactly `ClientOnlyClass`, whose closed form is given by `ClientOnlyClassIff`. |
| `SideOnly.SideOnlyContext.IsInClientOnlyContext` | src/main/kotlin/com/weathfold/soc/SideOnlyContext.kt:133-163 | The three-way dispatch with its superclass loop returns exactly `InContext`, which the `Context` lemmas characterise. |

## Left out

- The IDE's reference searches (`ReferencesSearch`, `MethodReferencesSearch` with strict signatures, `JavaFilesSearchScope`) are foreign index queries. Their results are an input (`SearchIndex`), and the `project` and `searchScope` fields are not modelled.
- The PSI tree is abstracted. `PsiTreeUtil.getParentOfType`, `superClass`, `containingClass`, `hasInitializer` and the comment test become fields of `Element`. `hasAnnotation` is the predicate `Psi.HasAnnotation` over the `annotations` field, and `getAnnotation` is the function `Psi.FindAnnotation`. The model does not check that these fields agree with one real tree beyond `WellFormed`.
- The visitor's traversal order becomes an input sequence. The model accepts any sequence, including one that repeats an element, and its lemmas hold for every order. `JavaRecursiveElementWalkingVisitor` itself, which reaches the elements in pre-order, is not modelled.
- Kinds are modelled through the visitor method each PSI element reaches. Type parameters, enum constants and enum constant bodies fall under `Class`, `Field` and `AnonymousClass` as their PSI interfaces dictate.
- Annotation attribute values that are not string literals (array initializers, constants) are modelled as an absent literal, which never matches.
- The JVM's full Unicode case tables are not modelled. `UpperCase` and `LowerCase` cover only ASCII and the three characters whose mapping reaches a letter of "SIDEONLY". That is enough for the only comparison the source makes.
- `PsiReference` ranges and offsets are not modelled. A reference is the element it sits at.
- src/main/kotlin/com/weathfold/soc/SideOnlyChecker.kt is not part of this model. It holds the project-component lifecycle, compiler `Validator` registration, dialogs, compiler messages and line lookup, all of it plugin I/O.
- src/main/kotlin/com/weathfold/soc/SDebug.kt is not part of this model. It only posts IDE notifications.
- The two `!!` assertions (lines 47 and 126) are preconditions (`Classification.VisitOk`), not modelled failures. The same goes for acyclic superclass chains and containment, which the source assumes without checking.
