/** Pieces of text and lists that several models share. */
module Strings {
  predicate EndsWith(s: string, end: string) { |s| >= |end| && s[|s| - |end|..] == end }

  predicate Distinct<T(==)>(s: seq<T>) { forall i, j :: 0 <= i < j < |s| ==> s[i] != s[j] }
}
