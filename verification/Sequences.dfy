/** Facts about strings and sequences shared by several modules. */
module Sequences {
  predicate SlashFree(s: string) { forall i :: 0 <= i < |s| ==> s[i] != '/' }

  lemma {:induction false} Assoc<T>(a: seq<T>, b: seq<T>, c: seq<T>)
    ensures a + (b + c) == a + b + c
  {
  }
}
