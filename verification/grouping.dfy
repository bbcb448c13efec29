/**
 * Grouping a list into a plain object of arrays, the way the transaction
 * list and the migration script both do it: visit the elements in order,
 * create the key's array when the key is missing, and push the element.
 * Elements without a key are skipped.
 */
module Grouping {
  import opened Common

  /** The elements whose key is k. */
  function HasKey<T, K(==)>(key: T -> Option<K>, k: K): T -> bool { x => key(x) == Some(k) }

  /** The elements that have a key at all. */
  function Keyed<T, K>(key: T -> Option<K>): T -> bool { x => key(x).Some? }

  /** The keys of the keyed elements, in list order, repeats included. */
  function KeysOf<T, K>(xs: seq<T>, key: T -> Option<K>): seq<K>
  {
    if xs == [] then []
    else
      var last := key(xs[|xs| - 1]);
      KeysOf(xs[..|xs| - 1], key) + (if last.Some? then [last.value] else [])
  }

  /** One visit: `if (!acc[k]) acc[k] = []; acc[k].push(x)`. An array is never falsy, so only a missing key counts. */
  function AddTo<T, K>(d: Dict<K, seq<T>>, k: K, x: T): Dict<K, seq<T>>
  {
    var d1 := if k !in d.values then Put(d, k, []) else d;
    Put(d1, k, d1.values[k] + [x])
  }

  /** The object after every element of xs has been visited, in order. */
  function GroupBy<T, K>(xs: seq<T>, key: T -> Option<K>): Dict<K, seq<T>>
  {
    if xs == [] then Dict([], map[])
    else
      var g := GroupBy(xs[..|xs| - 1], key);
      match key(xs[|xs| - 1])
      case None => g
      case Some(k) => AddTo(g, k, xs[|xs| - 1])
  }

  /** A key occurs among the keys exactly when some element has it. */
  lemma {:induction false} KeysOfMember<T(!new), K(!new)>(xs: seq<T>, key: T -> Option<K>, k: K)
    ensures k in KeysOf(xs, key) <==> Filter(xs, HasKey(key, k)) != []
  {
    if xs != [] {
      var n := |xs| - 1;
      KeysOfMember(xs[..n], key, k);
    }
  }

  /** One visit sets k to its old array, or [], with x pushed. */
  lemma AddToIsPut<T, K>(d: Dict<K, seq<T>>, k: K, x: T)
    ensures AddTo(d, k, x) == Put(d, k, (if k in d.values then d.values[k] else []) + [x])
  {
  }

  /** One visit keeps the object well formed and pushes x onto k's array only. */
  lemma AddToFacts<T, K(!new)>(d: Dict<K, seq<T>>, k: K, x: T)
    requires WellFormed(d)
    ensures WellFormed(AddTo(d, k, x))
    ensures AddTo(d, k, x).keys == if k in d.values then d.keys else d.keys + [k]
    ensures forall j :: j in AddTo(d, k, x).values <==> j in d.values || j == k
    ensures forall j :: j in d.values && j != k ==> AddTo(d, k, x).values[j] == d.values[j]
    ensures AddTo(d, k, x).values[k] == (if k in d.values then d.values[k] else []) + [x]
  {
    AddToIsPut(d, k, x);
    PutWellFormed(d, k, (if k in d.values then d.values[k] else []) + [x]);
  }

  /** The grouping is a well-formed object with a key for exactly the keys that occur. */
  lemma {:induction false} GroupByWellFormed<T, K(!new)>(xs: seq<T>, key: T -> Option<K>)
    ensures WellFormed(GroupBy(xs, key))
    ensures forall k :: k in GroupBy(xs, key).values <==> k in KeysOf(xs, key)
  {
    if xs != [] {
      var n := |xs| - 1;
      GroupByWellFormed(xs[..n], key);
      if key(xs[n]).Some? {
        AddToFacts(GroupBy(xs[..n], key), key(xs[n]).value, xs[n]);
      }
    }
  }

  /** Keys are listed once each, in order of their first element. */
  lemma {:induction false} GroupByKeys<T, K(!new)>(xs: seq<T>, key: T -> Option<K>)
    ensures GroupBy(xs, key).keys == Dedup(KeysOf(xs, key))
  {
    if xs != [] {
      var n := |xs| - 1;
      var ks := KeysOf(xs[..n], key);
      GroupByKeys(xs[..n], key);
      GroupByWellFormed(xs[..n], key);
      if key(xs[n]).Some? {
        var k := key(xs[n]).value;
        AddToIsPut(GroupBy(xs[..n], key), k, xs[n]);
        assert KeysOf(xs, key) == ks + [k];
        assert (ks + [k])[..|ks|] == ks;
      } else {
        assert KeysOf(xs, key) == ks;
      }
    }
  }

  /** One visit keeps every array equal to its key's elements in list order. */
  lemma ValuesStep<T(!new), K(!new)>(d: Dict<K, seq<T>>, xs: seq<T>, key: T -> Option<K>, x: T, k: K)
    requires WellFormed(d) && key(x) == Some(k)
    requires k !in d.values ==> Filter(xs, HasKey(key, k)) == []
    requires forall j :: j in d.values ==> d.values[j] == Filter(xs, HasKey(key, j))
    ensures forall j :: j in AddTo(d, k, x).values ==> AddTo(d, k, x).values[j] == Filter(xs + [x], HasKey(key, j))
  {
    AddToFacts(d, k, x);
    forall j | j in AddTo(d, k, x).values
      ensures AddTo(d, k, x).values[j] == Filter(xs + [x], HasKey(key, j))
    {
      FilterSnoc(xs, x, HasKey(key, j));
    }
  }

  /** Each array holds exactly the elements with its key, in list order. */
  lemma {:induction false} GroupByValues<T(!new), K(!new)>(xs: seq<T>, key: T -> Option<K>)
    ensures forall k :: k in GroupBy(xs, key).values ==> GroupBy(xs, key).values[k] == Filter(xs, HasKey(key, k))
  {
    if xs != [] {
      var n := |xs| - 1;
      var s, x := xs[..n], xs[n];
      assert xs == s + [x];
      var g := GroupBy(s, key);
      GroupByValues(s, key);
      GroupByWellFormed(s, key);
      match key(x)
      case None =>
        forall k | k in g.values ensures g.values[k] == Filter(xs, HasKey(key, k)) {
          FilterSnoc(s, x, HasKey(key, k));
        }
      case Some(k) =>
        KeysOfMember(s, key, k);
        ValuesStep(g, s, key, x, k);
    }
  }

  /** A key is present exactly when some element has it, and then holds those elements. */
  lemma GroupByDomain<T(!new), K(!new)>(xs: seq<T>, key: T -> Option<K>, k: K)
    ensures k in GroupBy(xs, key).values <==> Filter(xs, HasKey(key, k)) != []
    ensures k in GroupBy(xs, key).values ==> GroupBy(xs, key).values[k] == Filter(xs, HasKey(key, k))
  {
    GroupByWellFormed(xs, key);
    GroupByValues(xs, key);
    KeysOfMember(xs, key, k);
  }

  /** Object.entries: each key with its array, in key order. */
  function Entries<T, K>(d: Dict<K, seq<T>>): (r: seq<(K, seq<T>)>)
    requires forall k :: k in d.keys ==> k in d.values
    ensures |r| == |d.keys|
    ensures forall i :: 0 <= i < |r| ==> r[i].0 == d.keys[i] && r[i].1 == d.values[d.keys[i]]
  {
    seq(|d.keys|, i requires 0 <= i < |d.keys| => (d.keys[i], d.values[d.keys[i]]))
  }

  /** The elements of all arrays, key after key. */
  function Flatten<T, K>(es: seq<(K, seq<T>)>): seq<T>
  {
    if es == [] then [] else Flatten(es[..|es| - 1]) + es[|es| - 1].1
  }

  /** One more entry adds its array at the end. */
  lemma FlattenSnoc<T, K>(es: seq<(K, seq<T>)>, e: (K, seq<T>))
    ensures Flatten(es + [e]) == Flatten(es) + e.1
  {
    assert (es + [e])[..|es|] == es;
  }

  /** Pushing x onto the j-th array adds x once to the flattened elements. */
  lemma {:induction false} FlattenPush<T, K>(es: seq<(K, seq<T>)>, j: int, x: T)
    requires 0 <= j < |es|
    ensures multiset(Flatten(es[j := (es[j].0, es[j].1 + [x])])) == multiset(Flatten(es)) + multiset{x}
  {
    var n := |es| - 1;
    var pre, last := es[..n], es[n];
    assert es == pre + [last];
    FlattenSnoc(pre, last);
    if j == n {
      var e := (last.0, last.1 + [x]);
      assert es[j := (es[j].0, es[j].1 + [x])] == pre + [e];
      FlattenSnoc(pre, e);
    } else {
      var pre' := pre[j := (pre[j].0, pre[j].1 + [x])];
      assert es[j := (es[j].0, es[j].1 + [x])] == pre' + [last];
      FlattenPush(pre, j, x);
      FlattenSnoc(pre', last);
    }
  }

  /** Replacing the array of an existing key changes its entry in place. */
  lemma EntriesUpdate<T, K(!new)>(d: Dict<K, seq<T>>, j: int, v: seq<T>)
    requires WellFormed(d) && 0 <= j < |d.keys|
    ensures WellFormed(Put(d, d.keys[j], v))
    ensures Entries(Put(d, d.keys[j], v)) == Entries(d)[j := (d.keys[j], v)]
  {
    PutWellFormed(d, d.keys[j], v);
  }

  /** A new key's entry goes last. */
  lemma EntriesAppend<T, K(!new)>(d: Dict<K, seq<T>>, k: K, v: seq<T>)
    requires WellFormed(d) && k !in d.values
    ensures WellFormed(Put(d, k, v))
    ensures Entries(Put(d, k, v)) == Entries(d) + [(k, v)]
  {
    PutWellFormed(d, k, v);
  }

  /** One visit adds x once to the flattened elements. */
  lemma PartitionStep<T, K(!new)>(d: Dict<K, seq<T>>, k: K, x: T)
    requires WellFormed(d)
    ensures WellFormed(AddTo(d, k, x))
    ensures multiset(Flatten(Entries(AddTo(d, k, x)))) == multiset(Flatten(Entries(d))) + multiset{x}
  {
    AddToIsPut(d, k, x);
    var es := Entries(d);
    if k in d.values {
      var j :| 0 <= j < |d.keys| && d.keys[j] == k;
      EntriesUpdate(d, j, d.values[k] + [x]);
      FlattenPush(es, j, x);
    } else {
      assert [] + [x] == [x];
      EntriesAppend(d, k, [x]);
      var es' := es + [(k, [x])];
      assert es'[..|es|] == es;
      assert Flatten(es') == Flatten(es) + [x];
    }
  }

  /** Listing the arrays key after key gives back every keyed element, as often as it occurs. */
  lemma {:induction false} GroupByPartition<T(!new), K(!new)>(xs: seq<T>, key: T -> Option<K>)
    ensures WellFormed(GroupBy(xs, key))
    ensures multiset(Flatten(Entries(GroupBy(xs, key)))) == multiset(Filter(xs, Keyed(key)))
  {
    GroupByWellFormed(xs, key);
    if xs != [] {
      var n := |xs| - 1;
      var s, x := xs[..n], xs[n];
      assert xs == s + [x];
      GroupByPartition(s, key);
      FilterSnoc(s, x, Keyed(key));
      if key(x).Some? {
        PartitionStep(GroupBy(s, key), key(x).value, x);
      }
    }
  }

  /** Keys appear in the order in which they first occur. */
  lemma GroupByOrder<T, K(!new)>(xs: seq<T>, key: T -> Option<K>)
    ensures GroupBy(xs, key).keys == Dedup(KeysOf(xs, key))
    ensures var ks := Dedup(KeysOf(xs, key));
      forall i, j :: 0 <= i < j < |ks| ==> FirstIndex(KeysOf(xs, key), ks[i]) < FirstIndex(KeysOf(xs, key), ks[j])
  {
    GroupByKeys(xs, key);
    DedupOrder(KeysOf(xs, key));
  }
  /** The keys of a list extended by one element. */
  lemma KeysOfSnoc<T, K>(xs: seq<T>, x: T, key: T -> Option<K>)
    ensures KeysOf(xs + [x], key) == KeysOf(xs, key) + (if key(x).Some? then [key(x).value] else [])
  {
    assert (xs + [x])[..|xs|] == xs;
  }

  /** Filtering the elements first leaves no key that the whole list lacks. */
  lemma FilteredKeysOf<T(!new), K(!new)>(xs: seq<T>, key: T -> Option<K>, q: T -> bool, k: K)
    requires k in KeysOf(Filter(xs, q), key)
    ensures k in KeysOf(xs, key)
  {
    KeysOfMember(Filter(xs, q), key, k);
    var t := Filter(Filter(xs, q), HasKey(key, k))[0];
    FilterKeeps(xs, HasKey(key, k), t);
    KeysOfMember(xs, key, k);
  }

  /** Step of KeptKeyOrder for a last element that is filtered out. */
  lemma DroppedStep<K(!new)>(a: seq<K>, b: seq<K>, k: K)
    requires Dedup(b) == Filter(Dedup(a), InSeq(b))
    requires k in b ==> k in a
    ensures Dedup(b) == Filter(Dedup(a + [k]), InSeq(b))
  {
    DedupSnoc(a, k);
    FilterSnoc(Dedup(a), k, InSeq(b));
  }

  /** Step of KeptKeyOrder for a kept last element whose key is new. */
  lemma NewKeyStep<K(!new)>(a: seq<K>, b: seq<K>, k: K)
    requires Dedup(b) == Filter(Dedup(a), InSeq(b))
    requires k !in a && k !in b
    ensures Dedup(b + [k]) == Filter(Dedup(a + [k]), InSeq(b + [k]))
  {
    DedupSnoc(a, k);
    DedupSnoc(b, k);
    var d := Dedup(a);
    FilterSnoc(d, k, InSeq(b + [k]));
    FilterAgree(d, InSeq(b + [k]), InSeq(b));
  }

  /** Step of KeptKeyOrder for a kept last element whose key was kept before. */
  lemma KeptKeyStep<K(!new)>(a: seq<K>, b: seq<K>, k: K)
    requires Dedup(b) == Filter(Dedup(a), InSeq(b))
    requires k in a && k in b
    ensures Dedup(b + [k]) == Filter(Dedup(a + [k]), InSeq(b + [k]))
  {
    DedupSnoc(a, k);
    DedupSnoc(b, k);
    FilterAgree(Dedup(a), InSeq(b + [k]), InSeq(b));
  }

  /** Adding k to the test and to the end of a list without k appends k to the result. */
  lemma ReviveFilter<K(!new)>(e: seq<K>, b: seq<K>, k: K)
    requires k !in e && k !in b
    ensures Filter(e + [k], InSeq(b + [k])) == Filter(e + [k], InSeq(b)) + [k]
  {
    var p, p' := InSeq(b), InSeq(b + [k]);
    assert p'(k) && !p(k);
    FilterSnoc(e, k, p);
    FilterSnoc(e, k, p');
    FilterAgree(e, p', p);
    assert Filter(e + [k], p) == Filter(e, p);
    assert Filter(e + [k], p') == Filter(e, p) + [k];
  }

  /** A list without repeats is its front followed by its last element, which the front lacks. */
  lemma LastOfDistinct<K(!new)>(d: seq<K>)
    requires Distinct(d) && d != []
    ensures d == d[..|d| - 1] + [d[|d| - 1]] && d[|d| - 1] !in d[..|d| - 1]
  {
  }

  /** Step of KeptKeyOrder for a kept last element whose earlier elements were all dropped. */
  lemma RevivedKeyStep<K(!new)>(a: seq<K>, b: seq<K>, k: K)
    requires Dedup(b) == Filter(Dedup(a), InSeq(b))
    requires k in a && k !in b
    requires Dedup(a) != [] && Dedup(a)[|Dedup(a)| - 1] == k
    ensures Dedup(b + [k]) == Filter(Dedup(a + [k]), InSeq(b + [k]))
  {
    var d := Dedup(a);
    LastOfDistinct(d);
    var e := d[..|d| - 1];
    ReviveFilter(e, b, k);
    DedupSnoc(a, k);
    DedupSnoc(b, k);
  }

  /** A prefix of a list whose equal elements stand together has the same property. */
  lemma ContiguousPrefix<K>(s: seq<K>, n: nat)
    requires n <= |s| && Contiguous(s)
    ensures Contiguous(s[..n])
  {
    var a := s[..n];
    forall i, j, l | 0 <= i < j < l < |a| && a[i] == a[l] ensures a[j] == a[i] {
      assert s[i] == a[i] && s[j] == a[j] && s[l] == a[l];
    }
  }

  /** One element more: the induction step of KeptKeyOrder. */
  lemma KeyOrderStep<T(!new), K(!new)>(ys: seq<T>, x: T, key: T -> Option<K>, q: T -> bool)
    requires Contiguous(KeysOf(ys + [x], key))
    requires Dedup(KeysOf(Filter(ys, q), key)) == Filter(Dedup(KeysOf(ys, key)), InSeq(KeysOf(Filter(ys, q), key)))
    ensures Dedup(KeysOf(Filter(ys + [x], q), key)) == Filter(Dedup(KeysOf(ys + [x], key)), InSeq(KeysOf(Filter(ys + [x], q), key)))
  {
    var a, b := KeysOf(ys, key), KeysOf(Filter(ys, q), key);
    KeysOfSnoc(ys, x, key);
    FilterSnoc(ys, x, q);
    KeysOfSnoc(Filter(ys, q), x, key);
    forall j | j in b ensures j in a {
      FilteredKeysOf(ys, key, q, j);
    }
    if key(x).None? {
      assert KeysOf(ys + [x], key) == a;
      assert KeysOf(Filter(ys + [x], q), key) == b by {
        if q(x) {
          assert Filter(ys + [x], q) == Filter(ys, q) + [x];
        } else {
          assert Filter(ys + [x], q) == Filter(ys, q);
        }
      }
    } else {
      var k := key(x).value;
      assert KeysOf(ys + [x], key) == a + [k];
      if !q(x) {
        assert Filter(ys + [x], q) == Filter(ys, q);
        DroppedStep(a, b, k);
      } else {
        assert Filter(ys + [x], q) == Filter(ys, q) + [x];
        assert KeysOf(Filter(ys + [x], q), key) == b + [k];
        if k !in a {
          NewKeyStep(a, b, k);
        } else if k in b {
          KeptKeyStep(a, b, k);
        } else {
          DedupEndsWithRun(a, k);
          RevivedKeyStep(a, b, k);
        }
      }
    }
  }

  /**
   * When equal keys stand together in the list, grouping a filtered list
   * gives the keys in the same order as filtering the full grouping's keys
   * down to those that still occur.
   */
  lemma {:induction false} KeptKeyOrder<T(!new), K(!new)>(xs: seq<T>, key: T -> Option<K>, q: T -> bool)
    requires Contiguous(KeysOf(xs, key))
    ensures Dedup(KeysOf(Filter(xs, q), key)) == Filter(Dedup(KeysOf(xs, key)), InSeq(KeysOf(Filter(xs, q), key)))
  {
    if xs != [] {
      var n := |xs| - 1;
      var ys := xs[..n];
      assert xs == ys + [xs[n]];
      KeysOfSnoc(ys, xs[n], key);
      ContiguousPrefix(KeysOf(xs, key), |KeysOf(ys, key)|);
      assert KeysOf(xs, key)[..|KeysOf(ys, key)|] == KeysOf(ys, key);
      KeptKeyOrder(ys, key, q);
      KeyOrderStep(ys, xs[n], key, q);
    }
  }
}
