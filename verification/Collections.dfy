/** Options, and what several components need to know of sequences, sets and maps. */
module Collections {

  datatype Option<+T> = None | Some(value: T)

  predicate Distinct<T(==)>(s: seq<T>)
  {
    forall i, j :: 0 <= i < j < |s| ==> s[i] != s[j]
  }

  /** Two maps have the same keys. */
  ghost predicate SameKeys<K(!new), V, W>(a: map<K, V>, b: map<K, W>)
  {
    forall k :: k in a <==> k in b
  }

  /** Two maps agree at every key but one. */
  ghost predicate OnlyAt<T>(a: map<nat, T>, b: map<nat, T>, k: nat)
  {
    forall j :: j != k ==> (j in a <==> j in b) && (j in a ==> a[j] == b[j])
  }

  function Min(a: int, b: int): int
  {
    if a < b then a else b
  }

  lemma Associative<T>(a: seq<T>, b: seq<T>, c: seq<T>)
    ensures a + (b + c) == a + b + c
  {
  }

  lemma SubSlice<T>(s: seq<T>, low: nat, high: nat, i: nat, j: nat)
    requires low <= high <= |s| && i <= j <= high - low
    ensures s[low..high][i..j] == s[low + i..low + j]
  {
    forall k | 0 <= k < j - i
      ensures s[low..high][i..j][k] == s[low + i..low + j][k]
    {
    }
  }

  lemma SubsetSize<T>(a: set<T>, b: set<T>)
    requires a <= b
    ensures |a| <= |b|
  {
    assert b == a + (b - a);
  }

  lemma SameSize<T>(a: set<T>, b: set<T>)
    requires a <= b && |a| == |b|
    ensures a == b
  {
    if a != b {
      var x :| x in b && x !in a;
      SubsetSize(a, b - {x});
    }
  }
}
