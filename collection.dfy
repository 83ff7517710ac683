/** Removal by key, the `filter` every list page applies after a successful
    DELETE (and the candidate profile page applies to its skills). */
module Collection {

  /** `s.filter(x => key(x) !== k)`: the elements whose key differs from `k`,
      in their original order. */
  function Without<T, K(==)>(s: seq<T>, key: T -> K, k: K): (r: seq<T>)
    ensures |r| <= |s|
    ensures forall i :: 0 <= i < |r| ==> key(r[i]) != k
    ensures forall x :: x in r ==> x in s
    ensures forall i :: 0 <= i < |s| && key(s[i]) != k ==> s[i] in r
  {
    if s == [] then []
    else if key(s[0]) == k then Without(s[1..], key, k)
    else [s[0]] + Without(s[1..], key, k)
  }

  /** The filter works element by element: filtering a concatenation filters
      each part and keeps them in order. */
  lemma {:induction false} WithoutAppend<T, K>(a: seq<T>, b: seq<T>, key: T -> K, k: K)
    ensures Without(a + b, key, k) == Without(a, key, k) + Without(b, key, k)
  {
    if a == [] {
      assert a + b == b;
    } else {
      assert (a + b)[1..] == a[1..] + b;
      WithoutAppend(a[1..], b, key, k);
    }
  }

  /** A list holding no element with key `k` is left exactly as it was. */
  lemma {:induction false} WithoutAbsent<T, K>(s: seq<T>, key: T -> K, k: K)
    requires forall i :: 0 <= i < |s| ==> key(s[i]) != k
    ensures Without(s, key, k) == s
  {
    if s != [] {
      WithoutAbsent(s[1..], key, k);
    }
  }

  /** Removing the same key a second time changes nothing. */
  lemma WithoutIdempotent<T, K>(s: seq<T>, key: T -> K, k: K)
    ensures Without(Without(s, key, k), key, k) == Without(s, key, k)
  {
    WithoutAbsent(Without(s, key, k), key, k);
  }

  /** Removing one element with key `k` from the middle of a list gives the
      same result as removing `k` from the rest. */
  lemma WithoutDropsMatch<T, K>(a: seq<T>, x: T, b: seq<T>, key: T -> K)
    ensures Without(a + [x] + b, key, key(x)) == Without(a, key, key(x)) + Without(b, key, key(x))
  {
    WithoutAppend(a + [x], b, key, key(x));
    WithoutAppend(a, [x], key, key(x));
    assert Without([x], key, key(x)) == [];
  }
}
