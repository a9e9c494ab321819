/** Sequences used as the key order of an insertion-ordered dictionary. */
module Seqs {
  /** No element occurs twice. */
  predicate Distinct<T(==)>(s: seq<T>) {
    forall i, j :: 0 <= i < j < |s| ==> s[i] != s[j]
  }

  /** `s` with `x` removed, order kept (deleting a key from a Python dict). */
  function Without<T(==,!new)>(s: seq<T>, x: T): (r: seq<T>)
    ensures forall y :: y in r <==> y in s && y != x
    ensures Distinct(s) ==> Distinct(r)
  {
    if s == [] then []
    else
      var rest := Without(s[1..], x);
      if s[0] == x then rest
      else
        assert Distinct(s) ==> s[0] !in s[1..];
        [s[0]] + rest
  }

  /** Removing a key that was inserted last restores the previous key order. */
  lemma {:induction false} WithoutAppended<T(!new)>(s: seq<T>, x: T)
    requires x !in s
    ensures Without(s + [x], x) == s
  {
    if s != [] {
      assert (s + [x])[1..] == s[1..] + [x];
      WithoutAppended(s[1..], x);
    }
  }

  /** The key order after inserting `keys` one after the other: a key already present
      keeps its place, a new one goes to the end. */
  function Inserted<T(==,!new)>(order: seq<T>, keys: seq<T>): (r: seq<T>)
    ensures forall y :: y in r <==> y in order || y in keys
    ensures Distinct(order) ==> Distinct(r)
    ensures |order| <= |r| && r[..|order|] == order
  {
    if keys == [] then order
    else
      var prev := Inserted(order, keys[..|keys| - 1]);
      var k := keys[|keys| - 1];
      assert forall y :: y in keys <==> y in keys[..|keys| - 1] || y == k;
      if k in prev then prev else prev + [k]
  }
}
