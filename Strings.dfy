/**
 * Facts about string concatenation, stated once over arbitrary strings. The
 * regrouping lemmas let proofs re-associate concatenations by name instead of
 * asking the solver to compare the long URL literals character by character.
 */
module Strings {

  lemma AppendAssociative(x: string, y: string, z: string)
    ensures x + (y + z) == x + y + z
  {
  }

  /** The trailing `""` is the empty scope part of an unscoped query. */
  lemma Regroup4(p: string, a: string, b: string, c: string)
    ensures p + a + b + c == p + (a + b + c + "")
  {
  }

  lemma Regroup6(p: string, a: string, b: string, c: string, d: string, e: string)
    ensures p + a + b + c + d + e == p + (a + b + c + (d + e))
  {
  }

  lemma Regroup5(p: string, c: string, d: string, k: string, m: string)
    ensures p + (c + d) + k + m == p + c + (d + (k + m))
  {
  }

  lemma PrefixOfAppend(p: string, rest: string)
    ensures p <= p + rest
  {
  }

  lemma DropPrefix(p: string, rest: string)
    ensures |p| <= |p + rest| && (p + rest)[|p|..] == rest
  {
  }

  lemma HeadOfAppend(a: string, x: string)
    ensures |a| == 0 ==> a + x == x
    ensures |a| > 0 ==> (a + x)[0] == a[0]
  {
  }
}
