/** Sequence helpers standing in for the JavaScript array methods the dashboards
    use: `find`/`findIndex` (FirstIndex), `filter` with `!==` (FilterOut) and a
    numeric `reduce` starting at 0 (Sum). */
module Lists {

  datatype Option<+T> = None | Some(value: T)

  /** Index of the first element whose key equals `k`, as `findIndex` returns it
      (None standing for -1). */
  function FirstIndex<T, K(==)>(s: seq<T>, key: T -> K, k: K): (r: Option<nat>)
    ensures r.Some? ==> r.value < |s| && key(s[r.value]) == k
    ensures r.Some? ==> forall j :: 0 <= j < r.value ==> key(s[j]) != k
    ensures r.None? <==> forall j :: 0 <= j < |s| ==> key(s[j]) != k
  {
    if |s| == 0 then None
    else if key(s[0]) == k then Some(0)
    else match FirstIndex(s[1..], key, k)
      case None => None
      case Some(i) => Some(i + 1)
  }

  /** Two sequences whose keys agree position by position have the same first match. */
  lemma FirstIndexSameKeys<T, U, K>(s: seq<T>, t: seq<U>, f: T -> K, g: U -> K, k: K)
    requires |s| == |t|
    requires forall i :: 0 <= i < |s| ==> f(s[i]) == g(t[i])
    ensures FirstIndex(s, f, k) == FirstIndex(t, g, k)
  {
  }

  /** An element appended after a sequence with no match is the first match. */
  lemma FirstIndexAppended<T, K>(s: seq<T>, x: T, key: T -> K, k: K)
    requires key(x) == k
    ensures (forall j :: 0 <= j < |s| ==> key(s[j]) != k) ==> FirstIndex(s + [x], key, k) == Some(|s|)
  {
    assert key((s + [x])[|s|]) == k;
  }

  /** The elements whose key differs from `k`, in their original order. */
  function FilterOut<T, K(==)>(s: seq<T>, key: T -> K, k: K): (r: seq<T>)
    ensures |r| <= |s|
    ensures forall i :: 0 <= i < |r| ==> key(r[i]) != k
  {
    if s == [] then []
    else (if key(s[0]) == k then [] else [s[0]]) + FilterOut(s[1..], key, k)
  }

  /** Filtering distributes over concatenation, so the survivors keep their order. */
  lemma {:induction false} FilterOutAppend<T, K>(a: seq<T>, b: seq<T>, key: T -> K, k: K)
    ensures FilterOut(a + b, key, k) == FilterOut(a, key, k) + FilterOut(b, key, k)
  {
    if a == [] {
      assert a + b == b;
    } else {
      assert (a + b)[1..] == a[1..] + b;
      FilterOutAppend(a[1..], b, key, k);
    }
  }

  /** Filtering a sequence with no match returns it unchanged. */
  lemma {:induction false} FilterOutNoMatch<T, K>(s: seq<T>, key: T -> K, k: K)
    ensures (forall i :: 0 <= i < |s| ==> key(s[i]) != k) ==> FilterOut(s, key, k) == s
  {
    if s != [] && forall i :: 0 <= i < |s| ==> key(s[i]) != k {
      FilterOutNoMatch(s[1..], key, k);
    }
  }

  /** Filtering removes every occurrence of an element whose key is `k` and
      keeps every occurrence of any other element. */
  lemma {:induction false} FilterOutCount<T, K>(s: seq<T>, key: T -> K, k: K, x: T)
    ensures multiset(FilterOut(s, key, k))[x] == if key(x) == k then 0 else multiset(s)[x]
  {
    if s != [] {
      FilterOutCount(s[1..], key, k, x);
      assert s == [s[0]] + s[1..];
    }
  }

  /** When exactly one element carries key `k`, filtering removes that element
      and nothing else. */
  lemma {:induction false} FilterOutSingle<T, K>(s: seq<T>, key: T -> K, k: K, j: nat)
    requires j < |s| && key(s[j]) == k
    requires forall i :: 0 <= i < |s| && i != j ==> key(s[i]) != k
    ensures FilterOut(s, key, k) == s[..j] + s[j + 1..]
  {
    if j == 0 {
      FilterOutNoMatch(s[1..], key, k);
    } else {
      FilterOutSingle(s[1..], key, k, j - 1);
      assert s[..j] == [s[0]] + s[1..][..j - 1];
      assert s[j + 1..] == s[1..][j..];
    }
  }

  /** Left-to-right sum of `f` over `s`, the shape of `reduce((acc, x) => acc + f(x), 0)`. */
  function Sum<T>(s: seq<T>, f: T -> int): int
  {
    if s == [] then 0 else Sum(s[..|s| - 1], f) + f(s[|s| - 1])
  }

  /** A sum of non-negative terms is non-negative. */
  lemma {:induction false} SumNonNegative<T>(s: seq<T>, f: T -> int)
    ensures (forall i :: 0 <= i < |s| ==> f(s[i]) >= 0) ==> Sum(s, f) >= 0
  {
    if s != [] && forall i :: 0 <= i < |s| ==> f(s[i]) >= 0 {
      SumNonNegative(s[..|s| - 1], f);
    }
  }

  lemma {:induction false} SumAppend<T>(a: seq<T>, b: seq<T>, f: T -> int)
    ensures Sum(a + b, f) == Sum(a, f) + Sum(b, f)
  {
    if b == [] {
      assert a + b == a;
    } else {
      assert (a + b)[..|a + b| - 1] == a + b[..|b| - 1];
      SumAppend(a, b[..|b| - 1], f);
    }
  }

  lemma SumOne<T>(x: T, f: T -> int)
    ensures Sum([x], f) == f(x)
  {
    assert [x][..0] == [];
  }

  /** The sum splits around any position. */
  lemma SumSplit<T>(s: seq<T>, j: nat, f: T -> int)
    requires j < |s|
    ensures Sum(s, f) == Sum(s[..j], f) + f(s[j]) + Sum(s[j + 1..], f)
  {
    assert s == s[..j + 1] + s[j + 1..];
    SumAppend(s[..j + 1], s[j + 1..], f);
    assert s[..j + 1][..j] == s[..j];
  }

  /** Replacing one element changes the sum by exactly the difference of its terms. */
  lemma SumUpdate<T>(s: seq<T>, i: nat, x: T, f: T -> int)
    requires i < |s|
    ensures Sum(s[i := x], f) == Sum(s, f) - f(s[i]) + f(x)
  {
    SumSplit(s, i, f);
    SumSplit(s[i := x], i, f);
    assert s[i := x][..i] == s[..i];
    assert s[i := x][i + 1..] == s[i + 1..];
  }

  /** Dropping one element takes exactly its term off the sum. */
  lemma SumRemove<T>(s: seq<T>, j: nat, f: T -> int)
    requires j < |s|
    ensures Sum(s[..j] + s[j + 1..], f) == Sum(s, f) - f(s[j])
  {
    SumSplit(s, j, f);
    SumAppend(s[..j], s[j + 1..], f);
  }

  lemma {:induction false} SumZero<T>(s: seq<T>, f: T -> int)
    requires forall i :: 0 <= i < |s| ==> f(s[i]) == 0
    ensures Sum(s, f) == 0
  {
    if s != [] {
      SumZero(s[..|s| - 1], f);
    }
  }

  /** When only position `j` contributes, the sum is that contribution. */
  lemma SumSingle<T>(s: seq<T>, f: T -> int, j: nat)
    requires j < |s|
    requires forall i :: 0 <= i < |s| && i != j ==> f(s[i]) == 0
    ensures Sum(s, f) == f(s[j])
  {
    SumSplit(s, j, f);
    SumZero(s[..j], f);
    SumZero(s[j + 1..], f);
  }
}
