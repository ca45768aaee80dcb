/** Small vocabulary shared by the other modules. */
module Basics {

  datatype Option<+T> = None | Some(value: T)

  newtype byte = b: int | 0 <= b < 256

  /** No value occurs at two positions. */
  predicate NoDup<T(==)>(s: seq<T>) {
    forall i, j :: 0 <= i < j < |s| ==> s[i] != s[j]
  }

  /** `s` with every occurrence of `x` removed (`Vec::retain(|y| y != x)`). */
  function Without<T(==,!new)>(s: seq<T>, x: T): (r: seq<T>)
    ensures |r| <= |s|
    ensures forall y :: y in r <==> y in s && y != x
    ensures x !in s ==> r == s
    ensures NoDup(s) ==> NoDup(r)
  {
    if s == [] then []
    else
      assert s == [s[0]] + s[1..];
      var rest := Without(s[1..], x);
      assert NoDup(s) ==> s[0] !in s[1..];
      if s[0] == x then rest else [s[0]] + rest
  }

  /** `order` lists the set `s`, each member once, in some order (the iteration order of a hash map). */
  ghost predicate Enumerates<T(!new)>(order: seq<T>, s: set<T>) {
    NoDup(order) && forall x :: x in order <==> x in s
  }

  lemma {:induction false} SubsetSize<T>(a: set<T>, b: set<T>)
    requires a <= b
    ensures |a| <= |b|
  {
    if a != {} {
      var x :| x in a;
      SubsetSize(a - {x}, b - {x});
    }
  }
}
