/** Slices of concatenations, used to locate one piece inside a longer text. */
module Slices {

  /** A slice inside the left operand of `a + b` is that slice of `a`. */
  lemma PrefixSlice<T>(a: seq<T>, b: seq<T>, from: nat, to: nat)
    requires from <= to <= |a|
    ensures (a + b)[from..to] == a[from..to]
  {
  }

  /** A slice inside the right operand of `a + b` is that slice of `b`, shifted by `|a|`. */
  lemma SuffixSlice<T>(a: seq<T>, b: seq<T>, from: nat, to: nat)
    requires from <= to <= |b|
    ensures (a + b)[|a| + from..|a| + to] == b[from..to]
  {
  }
}
