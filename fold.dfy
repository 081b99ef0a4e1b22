/** Case folding as used by the alias lookups (`strings.EqualFold`).
    The model folds ASCII letters only; see README for what this leaves out. */
module Fold {

  /** The lower-case form of an ASCII upper-case letter; every other character is kept. */
  function FoldChar(c: char): (r: char)
    ensures 'A' <= c <= 'Z' ==> 'a' <= r <= 'z' && r as int == c as int + 32
    ensures !('A' <= c <= 'Z') ==> r == c
  {
    if 'A' <= c <= 'Z' then (c as int + 32) as char else c
  }

  /** The string with every character folded. */
  function FoldString(s: string): (r: string)
    ensures |r| == |s|
    ensures forall i :: 0 <= i < |s| ==> r[i] == FoldChar(s[i])
  {
    if s == [] then [] else [FoldChar(s[0])] + FoldString(s[1..])
  }

  /** Two strings are equal under case folding. */
  predicate EqualFold(a: string, b: string) {
    FoldString(a) == FoldString(b)
  }

  /** Equal-under-folding is an equivalence relation, which is what makes the
      lookups insensitive to the case of the query. */
  lemma EqualFoldIsEquivalence(a: string, b: string, c: string)
    ensures EqualFold(a, a)
    ensures EqualFold(a, b) ==> EqualFold(b, a)
    ensures EqualFold(a, b) && EqualFold(b, c) ==> EqualFold(a, c)
  {
  }

  /** Folding only ever relates strings of the same length that agree,
      position by position, up to the case of ASCII letters. */
  lemma {:induction false} EqualFoldCharwise(a: string, b: string)
    ensures EqualFold(a, b) <==> |a| == |b| && forall i :: 0 <= i < |a| ==> FoldChar(a[i]) == FoldChar(b[i])
  {
    if |a| == |b| && forall i :: 0 <= i < |a| ==> FoldChar(a[i]) == FoldChar(b[i]) {
      assert forall i :: 0 <= i < |a| ==> FoldString(a)[i] == FoldString(b)[i];
    }
  }
}
