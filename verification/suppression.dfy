/**
 * `doesIgnoreSideOnly`: a method opts out of the check with
 * `@SuppressWarnings("SIDEONLY")`, the keyword compared ignoring case.
 *
 * Kotlin's `equals(other, ignoreCase = true)` on the JVM is
 * `String.equalsIgnoreCase`: equal lengths, and position by position the
 * characters agree, or agree after upper-casing both, or agree after
 * upper-casing and then lower-casing both. `UpperCase` and `LowerCase` give
 * the JVM's case mapping on ASCII and on the three other characters whose
 * mapping lands on a letter of the keyword (dotless i, dotted capital I and
 * long s); every other character is left alone, which decides the comparison
 * with the keyword exactly as the JVM does.
 */
module Suppression {
  import opened Psi

  const SuppressWarningsName: string := "java.lang.SuppressWarnings"
  const Keyword: string := "SIDEONLY"

  const DotlessSmallI: char := '\U{0131}'
  const DottedCapitalI: char := '\U{0130}'
  const LongS: char := '\U{017F}'

  function UpperCase(c: char): char
  {
    if 'a' <= c <= 'z' then (c as int - 32) as char
    else if c == DotlessSmallI then 'I'
    else if c == LongS then 'S'
    else c
  }

  function LowerCase(c: char): char
  {
    if 'A' <= c <= 'Z' then (c as int + 32) as char
    else if c == DottedCapitalI then 'i'
    else c
  }

  predicate CharsEqualIgnoringCase(a: char, b: char)
  {
    a == b || UpperCase(a) == UpperCase(b) || LowerCase(UpperCase(a)) == LowerCase(UpperCase(b))
  }

  predicate EqualsIgnoringCase(s: string, k: string)
  {
    |s| == |k| && forall i :: 0 <= i < |s| ==> CharsEqualIgnoringCase(s[i], k[i])
  }

  /** `literalValue.equals("SIDEONLY", ignoreCase = true)`; a missing literal (`null`) never matches. */
  predicate LiteralMatches(v: Option<string>)
  {
    v.Some? && EqualsIgnoringCase(v.value, Keyword)
  }

  /** The `!!` on the parameter list: a `@SuppressWarnings` annotation of `m` has its parameter-list child. */
  predicate HasParameterList(m: Element)
  {
    var a := FindAnnotation(m.annotations, SuppressWarningsName);
    a.Some? ==> a.value.parameterList.Some?
  }

  /** The annotation has a parameter list with an attribute literal equal to the keyword ignoring case. */
  predicate NamesKeyword(a: Annotation)
  {
    a.parameterList.Some? && exists n :: n in a.parameterList.value && LiteralMatches(n.literalValue)
  }

  /** `doesIgnoreSideOnly`: some attribute of the method's `@SuppressWarnings` is the keyword. */
  predicate DoesIgnoreSideOnly(m: Element): (r: bool)
    requires HasParameterList(m)
    ensures r ==> HasAnnotation(m, SuppressWarningsName)
    ensures r ==> exists a :: a in m.annotations && a.qualifiedName == SuppressWarningsName && NamesKeyword(a)
  {
    match FindAnnotation(m.annotations, SuppressWarningsName)
    case None => false
    case Some(a) =>
      var attributes := a.parameterList.value;
      exists i :: 0 <= i < |attributes| && LiteralMatches(attributes[i].literalValue)
  }

  /** The spellings of each keyword letter that the JVM accepts as equal ignoring case. */
  function Spellings(k: char): set<char>
  {
    {k, LowerCase(k)}
    + (if k == 'I' then {DotlessSmallI, DottedCapitalI} else {})
    + (if k == 'S' then {LongS} else {})
  }

  lemma KeywordLetterSpellings(c: char, k: char)
    requires k in Keyword
    ensures CharsEqualIgnoringCase(c, k) <==> c in Spellings(k)
  {
  }

  /**
   * The strings that suppress are exactly the eight-character spellings of
   * "SIDEONLY" in any mix of cases (plus the three non-ASCII look-alikes).
   */
  lemma {:induction false} KeywordMatchesExactly(s: string)
    ensures LiteralMatches(Some(s)) <==>
      |s| == |Keyword| && forall i :: 0 <= i < |s| ==> s[i] in Spellings(Keyword[i])
  {
    if |s| == |Keyword| {
      forall i | 0 <= i < |s|
        ensures CharsEqualIgnoringCase(s[i], Keyword[i]) <==> s[i] in Spellings(Keyword[i])
      {
        KeywordLetterSpellings(s[i], Keyword[i]);
      }
    }
  }

  /** A method without `@SuppressWarnings` never suppresses the check. */
  lemma NoAnnotationNoSuppression(m: Element)
    requires HasParameterList(m)
    ensures !HasAnnotation(m, SuppressWarningsName) ==> !DoesIgnoreSideOnly(m)
  {
  }

  /**
   * With its one `@SuppressWarnings` annotation at position `n` (Java does not
   * let the annotation repeat), a method suppresses the check iff some
   * attribute of it is a string literal equal to the keyword ignoring case.
   */
  lemma SuppressionIff(m: Element, n: nat)
    requires n < |m.annotations| && m.annotations[n].qualifiedName == SuppressWarningsName
    requires forall j :: 0 <= j < |m.annotations| && j != n ==>
      m.annotations[j].qualifiedName != SuppressWarningsName
    requires m.annotations[n].parameterList.Some?
    ensures HasParameterList(m)
    ensures DoesIgnoreSideOnly(m) <==>
      exists i :: 0 <= i < |m.annotations[n].parameterList.value|
        && LiteralMatches(m.annotations[n].parameterList.value[i].literalValue)
  {
    var a := FindAnnotation(m.annotations, SuppressWarningsName);
    var i: nat :| FirstNamed(m.annotations, SuppressWarningsName, i) && m.annotations[i] == a.value;
    assert i == n;
  }

  /** Typical spellings: any ASCII case mix suppresses; an underscore, a missing literal or an empty string do not. */
  lemma KeywordExamples()
    ensures LiteralMatches(Some("sideonly")) && LiteralMatches(Some("SideOnly"))
    ensures LiteralMatches(Some("SIDEONLY"))
    ensures !LiteralMatches(Some("SIDE_ONLY")) && !LiteralMatches(Some(""))
    ensures !LiteralMatches(None)
  {
    assert CharsEqualIgnoringCase('_', 'O') == false;
    assert "SIDE_ONLY"[4] == '_';
  }
}
