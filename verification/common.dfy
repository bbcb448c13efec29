/**
 * Helpers shared by the whole model: an Option type, order-preserving
 * filtering, and the "keys of a JavaScript object in insertion order"
 * operation that several components rely on when they group a list.
 */
module Common {

  datatype Option<T> = None | Some(value: T)

  /** No element occurs twice. */
  predicate Distinct<K(==,!new)>(s: seq<K>) {
    forall i, j :: 0 <= i < j < |s| ==> s[i] != s[j]
  }

  /** Array.prototype.filter: the elements satisfying p, in their original order. */
  function Filter<T(!new)>(s: seq<T>, p: T -> bool): (r: seq<T>)
    ensures |r| <= |s|
    ensures forall x :: x in r ==> x in s && p(x)
  {
    if s == [] then []
    else Filter(s[..|s| - 1], p) + (if p(s[|s| - 1]) then [s[|s| - 1]] else [])
  }

  lemma {:induction false} FilterAppend<T(!new)>(a: seq<T>, b: seq<T>, p: T -> bool)
    ensures Filter(a + b, p) == Filter(a, p) + Filter(b, p)
  {
    if b == [] {
      assert a + b == a;
    } else {
      var n := |b| - 1;
      assert (a + b)[..|a + b| - 1] == a + b[..n];
      FilterAppend(a, b[..n], p);
    }
  }

  /** Filtering drops no element that satisfies p. */
  lemma {:induction false} FilterKeeps<T(!new)>(s: seq<T>, p: T -> bool, x: T)
    requires x in s && p(x)
    ensures x in Filter(s, p)
  {
    var n := |s| - 1;
    if s[n] != x {
      assert x in s[..n] by { assert s == s[..n] + [s[n]]; }
      FilterKeeps(s[..n], p, x);
    }
  }

  /** Filtering a list extended by one element. */
  lemma FilterSnoc<T(!new)>(s: seq<T>, x: T, p: T -> bool)
    ensures Filter(s + [x], p) == Filter(s, p) + (if p(x) then [x] else [])
  {
    assert (s + [x])[..|s|] == s;
  }

  /** Filtering twice is filtering once by the conjunction. */
  lemma {:induction false} FilterFilter<T(!new)>(s: seq<T>, p: T -> bool, q: T -> bool, pq: T -> bool)
    requires forall x :: pq(x) == (p(x) && q(x))
    ensures Filter(Filter(s, p), q) == Filter(s, pq)
  {
    if s != [] {
      var n := |s| - 1;
      FilterFilter(s[..n], p, q, pq);
      FilterAppend(Filter(s[..n], p), if p(s[n]) then [s[n]] else [], q);
    }
  }

  /** Two tests that agree on every element of s filter it alike. */
  lemma {:induction false} FilterAgree<T(!new)>(s: seq<T>, p: T -> bool, q: T -> bool)
    requires forall x :: x in s ==> p(x) == q(x)
    ensures Filter(s, p) == Filter(s, q)
  {
    if s != [] {
      var n := |s| - 1;
      assert s == s[..n] + [s[n]];
      FilterAgree(s[..n], p, q);
    }
  }

  /** Filtering keeps every element satisfying p as often as it occurs, and drops the others. */
  lemma {:induction false} FilterCount<T(!new)>(s: seq<T>, p: T -> bool, x: T)
    ensures multiset(Filter(s, p))[x] == if p(x) then multiset(s)[x] else 0
  {
    if s != [] {
      var n := |s| - 1;
      FilterCount(s[..n], p, x);
      assert s == s[..n] + [s[n]];
    }
  }

  /** Every element of s satisfies p exactly when filtering changes nothing. */
  lemma {:induction false} FilterAll<T(!new)>(s: seq<T>, p: T -> bool)
    ensures (forall x :: x in s ==> p(x)) <==> Filter(s, p) == s
  {
    if s != [] {
      var n := |s| - 1;
      FilterAll(s[..n], p);
      assert s == s[..n] + [s[n]];
      if Filter(s, p) == s {
        assert |Filter(s[..n], p)| <= n;
        assert p(s[n]);
        assert Filter(s[..n], p) == s[..n];
      }
    }
  }

  /**
   * The distinct elements of s in order of first occurrence: the key order
   * of a JavaScript object filled by walking s and creating a key when it is
   * first met.
   */
  function Dedup<K(==,!new)>(s: seq<K>): (r: seq<K>)
    ensures Distinct(r)
    ensures forall x :: x in r <==> x in s
    ensures |r| <= |s|
  {
    if s == [] then []
    else
      var p := Dedup(s[..|s| - 1]);
      if s[|s| - 1] in p then p else p + [s[|s| - 1]]
  }

  /** Index of the first occurrence of x in s. */
  function FirstIndex<K(==,!new)>(s: seq<K>, x: K): (i: nat)
    requires x in s
    ensures i < |s| && s[i] == x && x !in s[..i]
  {
    if s[0] == x then 0 else 1 + FirstIndex(s[1..], x)
  }

  lemma FirstIndexPrefix<K(!new)>(s: seq<K>, n: nat, x: K)
    requires n <= |s| && x in s[..n]
    ensures FirstIndex(s[..n], x) == FirstIndex(s, x)
  {
  }

  /** Dedup lists keys in the order in which they first occur in s. */
  lemma {:induction false} DedupOrder<K(!new)>(s: seq<K>)
    ensures forall i, j :: 0 <= i < j < |Dedup(s)| ==>
              FirstIndex(s, Dedup(s)[i]) < FirstIndex(s, Dedup(s)[j])
  {
    if s != [] {
      var n := |s| - 1;
      var p := Dedup(s[..n]);
      DedupOrder(s[..n]);
      forall x | x in p ensures FirstIndex(s, x) == FirstIndex(s[..n], x) && FirstIndex(s, x) < n {
        FirstIndexPrefix(s, n, x);
      }
      if s[n] !in p {
        assert s[n] !in s[..n];
        assert FirstIndex(s, s[n]) == n;
      }
    }
  }

  /** Appending a key adds it to the end of the first-occurrence order when it is new. */
  lemma DedupSnoc<K(!new)>(s: seq<K>, k: K)
    ensures Dedup(s + [k]) == if k in s then Dedup(s) else Dedup(s) + [k]
  {
    assert (s + [k])[..|s|] == s;
  }

  /** Equal elements stand together: once another element comes between, an element never returns. */
  predicate Contiguous<K(==)>(s: seq<K>)
  {
    forall i, j, l :: 0 <= i < j < l < |s| && s[i] == s[l] ==> s[j] == s[i]
  }

  /** The test "occurs in s". */
  function InSeq<K(==)>(s: seq<K>): K -> bool { k => k in s }

  /** Dropping the last element keeps equal elements together. */
  lemma ContiguousInit<K>(s: seq<K>, k: K)
    requires Contiguous(s + [k])
    ensures Contiguous(s)
  {
    forall a, b, c | 0 <= a < b < c < |s| && s[a] == s[c] ensures s[b] == s[a] {
      assert (s + [k])[a] == s[a] && (s + [k])[b] == s[b] && (s + [k])[c] == s[c];
    }
  }

  /** An element that returns at the end must be the one just before it. */
  lemma ContiguousLast<K>(s: seq<K>, k: K)
    requires Contiguous(s + [k]) && k in s
    ensures s[|s| - 1] == k
  {
    var n := |s| - 1;
    var i :| 0 <= i < |s| && s[i] == k;
    if i < n {
      assert (s + [k])[i] == (s + [k])[|s|];
      assert (s + [k])[n] == s[n];
    }
  }

  /** When k closes a run that began earlier, k is the last element to have been met for the first time. */
  lemma {:induction false} DedupEndsWithRun<K(!new)>(s: seq<K>, k: K)
    requires Contiguous(s + [k]) && k in s
    ensures Dedup(s) != [] && Dedup(s)[|Dedup(s)| - 1] == k
  {
    var n := |s| - 1;
    ContiguousLast(s, k);
    assert s == s[..n] + [k];
    DedupSnoc(s[..n], k);
    if k in s[..n] {
      ContiguousInit(s, k);
      DedupEndsWithRun(s[..n], k);
    }
  }

  /**
   * A plain JavaScript object used as a dictionary: its values, and its keys
   * in insertion order (the order Object.keys and Object.entries report for
   * keys that are not array indices).
   */
  datatype Dict<K, V> = Dict(keys: seq<K>, values: map<K, V>)

  /** The key order lists each key of the object exactly once. */
  ghost predicate WellFormed<K(!new), V>(d: Dict<K, V>)
  {
    Distinct(d.keys) && forall k :: k in d.values <==> k in d.keys
  }

  /** `obj[k] = v`: a new key goes to the end of the key order, an existing one keeps its place. */
  function Put<K, V>(d: Dict<K, V>, k: K, v: V): Dict<K, V>
  {
    Dict(if k in d.values then d.keys else d.keys + [k], d.values[k := v])
  }

  /** Setting a key keeps the object well formed, and changes only that key's value. */
  lemma PutWellFormed<K(!new), V>(d: Dict<K, V>, k: K, v: V)
    requires WellFormed(d)
    ensures WellFormed(Put(d, k, v))
    ensures Put(d, k, v).values[k] == v
    ensures forall j :: j in d.values && j != k ==> Put(d, k, v).values[j] == d.values[j]
  {
  }

  /** The test "is not k". */
  function Other<K(==)>(k: K): K -> bool { x => x != k }

  /** `delete obj[k]`: the key leaves both the values and the key order, the others keep their order. */
  function Delete<K(!new), V>(d: Dict<K, V>, k: K): Dict<K, V>
  {
    Dict(Filter(d.keys, Other(k)), d.values - {k})
  }

  /** Deleting a key keeps the object well formed and removes exactly that key. */
  lemma DeleteWellFormed<K(!new), V>(d: Dict<K, V>, k: K)
    requires WellFormed(d)
    ensures WellFormed(Delete(d, k))
    ensures forall j :: j in Delete(d, k).values <==> j in d.values && j != k
  {
    FilterDistinct(d.keys, Other(k));
    forall x | x in d.keys && x != k ensures x in Delete(d, k).keys {
      FilterKeeps(d.keys, Other(k), x);
    }
  }

  /** Filtering a list without duplicates leaves it without duplicates. */
  lemma {:induction false} FilterDistinct<T(!new)>(s: seq<T>, p: T -> bool)
    requires Distinct(s)
    ensures Distinct(Filter(s, p))
  {
    if s != [] {
      var n := |s| - 1;
      FilterDistinct(s[..n], p);
      assert s[n] !in s[..n];
    }
  }
}
