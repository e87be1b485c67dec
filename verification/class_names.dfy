/** Class names as the instrumentor sees them.

    A JVM class name arrives either in its binary spelling
    (`java.lang.String`, package parts separated by dots) or in its internal
    spelling (`java/lang/String`, separated by slashes). Before deciding
    anything the instrumentor rewrites every dot into a slash, so that all of
    its prefix and equality tests work on the internal spelling only. This
    module defines that normalisation and proves the facts the decision
    relies on: it is length- and position-preserving, it leaves no dot
    behind, it is idempotent, and two spellings normalise to the same name
    exactly when they name the same class.
 */
module ClassNames {

  /** The image of one character under normalisation. */
  function ToSlash(c: char): char {
    if c == '.' then '/' else c
  }

  /** The internal spelling of `name`: every `.` replaced by `/`, every other
      character kept where it is. */
  function Normalize(name: string): (r: string)
    ensures |r| == |name|
    ensures forall i :: 0 <= i < |name| && name[i] == '.' ==> r[i] == '/'
    ensures forall i :: 0 <= i < |name| && name[i] != '.' ==> r[i] == name[i]
  {
    seq(|name|, i requires 0 <= i < |name| => ToSlash(name[i]))
  }

  /** A name already in internal spelling. */
  predicate IsSlashed(name: string) {
    '.' !in name
  }

  /** Two spellings denote the same class when they agree everywhere except
      that one may have `.` where the other has `/`. */
  predicate SameClass(a: string, b: string) {
    && |a| == |b|
    && forall i :: 0 <= i < |a| ==> (a[i] == b[i] || (a[i] in "./" && b[i] in "./"))
  }

  /** Normalisation always produces an internal spelling. */
  lemma NormalizeIsSlashed(name: string)
    ensures IsSlashed(Normalize(name))
  {
  }

  /** A name is left unchanged by normalisation exactly when it has no dot. */
  lemma NormalizeFixesExactlySlashed(name: string)
    ensures Normalize(name) == name <==> IsSlashed(name)
  {
  }

  /** Normalising twice is normalising once, so a caller that normalises
      before handing the name to a normaliser changes nothing. */
  lemma NormalizeIdempotent(name: string)
    ensures Normalize(Normalize(name)) == Normalize(name)
  {
  }

  /** A prefix of a name normalises to a prefix of its normal form. */
  lemma NormalizePrefix(p: string, name: string)
    requires p <= name
    ensures Normalize(p) <= Normalize(name)
  {
  }

  /** Two spellings have the same normal form exactly when they name the
      same class: the dotted and slashed spellings are interchangeable, and
      nothing else is identified. */
  lemma NormalizeIdentifiesSameClass(a: string, b: string)
    ensures Normalize(a) == Normalize(b) <==> SameClass(a, b)
  {
  }
}
