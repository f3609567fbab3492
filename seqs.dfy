/** Sequence operations the morphology layer performs on strings and on tuples of parses. */
module Seqs {

  /** `sub` is `s` with some elements dropped and the rest kept in their order. */
  predicate IsSubsequence<T(==,!new)>(sub: seq<T>, s: seq<T>)
    decreases |s|
  {
    if sub == [] then true
    else if s == [] then false
    else if sub[0] == s[0] then IsSubsequence(sub[1..], s[1..])
    else IsSubsequence(sub, s[1..])
  }

  /** Every sequence is a subsequence of itself. */
  lemma {:induction false} SubsequenceReflexive<T(!new)>(s: seq<T>)
    ensures IsSubsequence(s, s)
    decreases |s|
  {
    if s != [] {
      SubsequenceReflexive(s[1..]);
    }
  }

  /** The elements of `s` that satisfy `keep`, in order (a generator expression with an `if`). */
  function Filter<T(==,!new)>(s: seq<T>, keep: T -> bool): (r: seq<T>)
    ensures IsSubsequence(r, s)
    ensures forall x :: x in r ==> keep(x)
    ensures forall x :: keep(x) ==> multiset(r)[x] == multiset(s)[x]
    ensures (forall i :: 0 <= i < |s| ==> keep(s[i])) ==> r == s
  {
    if s == [] then []
    else if keep(s[0]) then
      var rest := Filter(s[1..], keep);
      assert ([s[0]] + rest)[1..] == rest;
      assert s == [s[0]] + s[1..];
      [s[0]] + rest
    else
      var rest := Filter(s[1..], keep);
      assert rest != [] ==> rest[0] in rest && rest[0] != s[0];
      assert s == [s[0]] + s[1..];
      rest
  }

  /** Position of the first `c` in `s`, or -1 when `s` has none (Python's `str.find`). */
  function FindFirst<T(==,!new)>(s: seq<T>, c: T): (r: int)
    ensures -1 <= r < |s|
    ensures r == -1 <==> c !in s
    ensures 0 <= r < |s| ==> s[r] == c
    ensures forall j :: 0 <= j < r && j < |s| ==> s[j] != c
  {
    if s == [] then -1
    else if s[0] == c then 0
    else
      var k := FindFirst(s[1..], c);
      if k == -1 then -1 else k + 1
  }

  /** `s` with every occurrence of `c` removed (Python's `s.replace(c, "")`). */
  function RemoveAll<T(==,!new)>(s: seq<T>, c: T): (r: seq<T>)
    ensures c !in r
    ensures forall x :: x != c ==> multiset(r)[x] == multiset(s)[x]
    ensures IsSubsequence(r, s)
    ensures r == s <==> c !in s
  {
    Filter(s, x => x != c)
  }
}
