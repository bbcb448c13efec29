/**
 * The one-off migration script: it reads every transaction of the old root
 * collection, groups them by their owner's uid (skipping those without
 * one), and copies each into its owner's own collection, committing the
 * writes in batches of at most 500.
 *
 * The snapshot is an input; the writes are collected, batch by batch, as
 * the sequence of commits the script makes.
 */
module Migration {
  import opened Common
  import opened JsonData
  import opened Grouping

  /** The store's limit on writes per batch. */
  const MaxBatch: nat := 500

  /** A document of the root collection: its id and its data. */
  datatype SourceDoc = SourceDoc(id: string, data: map<string, Json>)

  /** One write of a batch: `users/{owner}/transactions/{docId}` is set to `data`. */
  datatype Write = Write(owner: string, docId: string, data: map<string, Json>)

  /** The owner's uid: the document's `userId` when it is a non-empty string; None means skipped. */
  function Owner(d: SourceDoc): Option<string>
  {
    NonEmptyString(if "userId" in d.data then Some(d.data["userId"]) else None)
  }

  /** The written data: the original fields without `id` and `userId`. */
  function Stripped(data: map<string, Json>): (r: map<string, Json>)
    ensures "id" !in r && "userId" !in r
    ensures forall k :: k in data && k != "id" && k != "userId" ==> k in r && r[k] == data[k]
    ensures forall k :: k in r ==> k in data
  {
    data - {"id", "userId"}
  }

  /** The write for one of u's documents, kept under its own id. */
  function WriteOf(u: string, d: SourceDoc): Write
  {
    Write(u, d.id, Stripped(d.data))
  }

  /** The writes for u's documents, in their order. */
  function UserWrites(u: string, ds: seq<SourceDoc>): (r: seq<Write>)
    ensures |r| == |ds|
    ensures forall i :: 0 <= i < |ds| ==> r[i] == WriteOf(u, ds[i])
  {
    seq(|ds|, i requires 0 <= i < |ds| => WriteOf(u, ds[i]))
  }

  /** The writes for each listed owner's documents, owner after owner. */
  function PlanOf(keys: seq<string>, values: map<string, seq<SourceDoc>>): seq<Write>
  {
    if keys == [] then []
    else
      var n := |keys| - 1;
      PlanOf(keys[..n], values) + UserWrites(keys[n], if keys[n] in values then values[keys[n]] else [])
  }

  /** All writes of the migration, in the order the script makes them. */
  function Plan(docs: seq<SourceDoc>): seq<Write>
  {
    var g := GroupBy(docs, Owner);
    PlanOf(g.keys, g.values)
  }

  /** The batches' writes laid end to end. */
  function Concat(cs: seq<seq<Write>>): seq<Write>
  {
    if cs == [] then [] else cs[0] + Concat(cs[1..])
  }

  /** Cutting a list of writes into consecutive batches of n, the last one possibly shorter. */
  function Chunks(ws: seq<Write>, n: nat): seq<seq<Write>>
    requires n > 0
    decreases |ws|
  {
    if ws == [] then []
    else if |ws| <= n then [ws]
    else [ws[..n]] + Chunks(ws[n..], n)
  }

  /** The grouping pass: `transactionsByUser`, filled document by document in snapshot order. */
  method GroupByOwner(docs: seq<SourceDoc>) returns (byUser: Dict<string, seq<SourceDoc>>)
    ensures byUser == GroupBy(docs, Owner)
    ensures WellFormed(byUser)
    ensures forall u :: u in byUser.values ==> byUser.values[u] == Filter(docs, HasKey(Owner, u))
  {
    byUser := Dict([], map[]);
    var i := 0;
    while i < |docs|
      invariant 0 <= i <= |docs|
      invariant byUser == GroupBy(docs[..i], Owner)
    {
      var d := docs[i];
      var owner := Owner(d);
      if owner.Some? {
        var userId := owner.value;
        if userId !in byUser.values {
          byUser := Put(byUser, userId, []);
        }
        byUser := Put(byUser, userId, byUser.values[userId] + [d]);
      }
      assert docs[..i + 1][..i] == docs[..i];
      i := i + 1;
    }
    assert docs[..|docs|] == docs;
    GroupByWellFormed(docs, Owner);
    GroupByValues(docs, Owner);
  }

  /** Batches that are all full. */
  predicate AllFull(commits: seq<seq<Write>>)
  {
    forall c :: c in commits ==> |c| == MaxBatch
  }

  /**
   * `batch.set(...)`, `operationCount++`, and the commit with a fresh batch
   * once 500 writes are pending: the pending writes and the commits
   * together grow by w, and fewer than 500 stay pending.
   */
  method AddWrite(commits: seq<seq<Write>>, batch: seq<Write>, w: Write) returns (commits': seq<seq<Write>>, batch': seq<Write>)
    requires AllFull(commits) && |batch| < MaxBatch
    ensures AllFull(commits') && |batch'| < MaxBatch
    ensures Concat(commits') + batch' == Concat(commits) + batch + [w]
    ensures |batch| + 1 < MaxBatch ==> commits' == commits && batch' == batch + [w]
    ensures |batch| + 1 == MaxBatch ==> commits' == commits + [batch + [w]] && batch' == []
  {
    batch' := batch + [w];
    commits' := commits;
    if |batch'| >= MaxBatch {
      ConcatSnoc(commits, batch');
      commits' := commits + [batch'];
      batch' := [];
    }
  }

  /** The plan over one more owner adds that owner's writes at the end. */
  lemma PlanOfSnoc(keys: seq<string>, values: map<string, seq<SourceDoc>>, i: int)
    requires 0 <= i < |keys| && keys[i] in values
    ensures PlanOf(keys[..i + 1], values) == PlanOf(keys[..i], values) + UserWrites(keys[i], values[keys[i]])
  {
    assert keys[..i + 1][..i] == keys[..i];
  }

  /**
   * The inner loop of the write pass: one owner's documents, each set under
   * its own id with its stripped data.
   */
  method WriteOwner(commits: seq<seq<Write>>, batch: seq<Write>, userId: string, list: seq<SourceDoc>)
    returns (commits': seq<seq<Write>>, batch': seq<Write>)
    requires AllFull(commits) && |batch| < MaxBatch
    ensures AllFull(commits') && |batch'| < MaxBatch
    ensures Concat(commits') + batch' == Concat(commits) + batch + UserWrites(userId, list)
  {
    commits', batch' := commits, batch;
    var j := 0;
    while j < |list|
      invariant 0 <= j <= |list|
      invariant AllFull(commits') && |batch'| < MaxBatch
      invariant Concat(commits') + batch' == Concat(commits) + batch + UserWrites(userId, list[..j])
    {
      var d := list[j];
      commits', batch' := AddWrite(commits', batch', Write(userId, d.id, Stripped(d.data)));
      UserWritesSnoc(userId, list, j);
      j := j + 1;
    }
    assert list[..j] == list;
  }

  /**
   * The write pass: walk the owners and their documents, committing
   * whenever 500 writes are pending and once more at the end if any are
   * left. The commits are the writes cut into batches of 500.
   */
  method WriteBatches(byUser: Dict<string, seq<SourceDoc>>) returns (commits: seq<seq<Write>>)
    requires WellFormed(byUser)
    ensures commits == Chunks(PlanOf(byUser.keys, byUser.values), MaxBatch)
  {
    var batch: seq<Write> := [];
    commits := [];
    var ui := 0;
    while ui < |byUser.keys|
      invariant 0 <= ui <= |byUser.keys|
      invariant |batch| < MaxBatch && AllFull(commits)
      invariant Concat(commits) + batch == PlanOf(byUser.keys[..ui], byUser.values)
    {
      var userId := byUser.keys[ui];
      commits, batch := WriteOwner(commits, batch, userId, byUser.values[userId]);
      PlanOfSnoc(byUser.keys, byUser.values, ui);
      ui := ui + 1;
    }
    assert byUser.keys[..ui] == byUser.keys;
    ghost var full := commits;
    var operationCount := |batch|;
    if operationCount > 0 {
      commits := commits + [batch];
    }
    ChunksOf(full, batch, MaxBatch);
  }

  /** One more document of an owner adds its write at the end. */
  lemma UserWritesSnoc(u: string, ds: seq<SourceDoc>, j: int)
    requires 0 <= j < |ds|
    ensures UserWrites(u, ds[..j + 1]) == UserWrites(u, ds[..j]) + [WriteOf(u, ds[j])]
  {
    assert UserWrites(u, ds[..j + 1])[j] == WriteOf(u, ds[j]);
  }

  /**
   * migrateTransactions: nothing happens for an empty snapshot; otherwise
   * the grouping pass, then the write pass. The commits are the plan's
   * writes cut into batches of at most 500.
   */
  method Migrate(docs: seq<SourceDoc>) returns (commits: seq<seq<Write>>)
    ensures commits == Chunks(Plan(docs), MaxBatch)
    ensures forall i :: 0 <= i < |commits| ==> 0 < |commits[i]| <= MaxBatch
  {
    if |docs| == 0 {
      return [];
    }
    var byUser := GroupByOwner(docs);
    commits := WriteBatches(byUser);
    ChunkSizes(Plan(docs), MaxBatch);
  }

  /**
   * The whole script with its failure path. The read fails when `snapshot`
   * is None; `failAt` is the index of the first commit that throws, if any.
   * The catch ends the script with exit code 1; a batch commits all of its
   * writes or none, so the batches committed before the failure stay
   * written. Otherwise the script finishes normally (exit code 0).
   */
  method MigrateOrExit(snapshot: Option<seq<SourceDoc>>, failAt: Option<nat>) returns (committed: seq<seq<Write>>, exitCode: int)
    ensures snapshot.None? ==> committed == [] && exitCode == 1
    ensures snapshot.Some? ==>
      var all := Chunks(Plan(snapshot.value), MaxBatch);
      if failAt.Some? && failAt.value < |all|
      then committed == all[..failAt.value] && exitCode == 1
      else committed == all && exitCode == 0
    ensures snapshot.Some? ==> Concat(committed) <= Plan(snapshot.value)
    ensures exitCode == 0 <==> snapshot.Some? && Concat(committed) == Plan(snapshot.value)
  {
    if snapshot.None? {
      return [], 1;
    }
    var docs := snapshot.value;
    var all := Migrate(docs);
    ChunksConcat(Plan(docs), MaxBatch);
    if failAt.Some? && failAt.value < |all| {
      committed, exitCode := all[..failAt.value], 1;
      ConcatPrefix(all, failAt.value);
      ConcatShort(all, failAt.value);
    } else {
      committed, exitCode := all, 0;
    }
  }

  /** The batches committed before the k-th lay down a prefix of all the writes. */
  lemma {:induction false} ConcatPrefix(cs: seq<seq<Write>>, k: nat)
    requires k <= |cs|
    ensures Concat(cs) == Concat(cs[..k]) + Concat(cs[k..])
  {
    if k > 0 {
      assert cs[1..][..k - 1] == cs[..k][1..];
      assert cs[1..][k - 1..] == cs[k..];
      ConcatPrefix(cs[1..], k - 1);
    }
  }

  /** Stopping before a non-empty batch leaves some of the writes undone. */
  lemma ConcatShort(cs: seq<seq<Write>>, k: nat)
    requires k < |cs| && cs[k] != []
    ensures |Concat(cs[..k])| < |Concat(cs)|
  {
    ConcatPrefix(cs, k);
    assert cs[k..] == [cs[k]] + cs[k + 1..];
  }

  /** Appending a batch appends its writes. */
  lemma {:induction false} ConcatSnoc(cs: seq<seq<Write>>, c: seq<Write>)
    ensures Concat(cs + [c]) == Concat(cs) + c
  {
    if cs != [] {
      assert (cs + [c])[1..] == cs[1..] + [c];
      ConcatSnoc(cs[1..], c);
    }
  }

  /**
   * Full batches followed by a shorter pending one are the batches of their
   * writes: the loop's commits, plus the final one, are exactly Chunks.
   */
  lemma {:induction false} ChunksOf(cs: seq<seq<Write>>, b: seq<Write>, n: nat)
    requires n > 0 && |b| < n
    requires forall c :: c in cs ==> |c| == n
    ensures Chunks(Concat(cs) + b, n) == cs + (if b == [] then [] else [b])
  {
    if cs == [] {
      assert Concat(cs) + b == b;
    } else {
      var ws := Concat(cs) + b;
      var rest := Concat(cs[1..]) + b;
      assert cs[0] in cs;
      assert ws == cs[0] + rest;
      assert ws[..n] == cs[0] && ws[n..] == rest;
      ChunksOf(cs[1..], b, n);
      if rest == [] {
        if cs[1..] != [] {
          assert false;
        }
        assert cs == [cs[0]];
      } else {
        assert cs == [cs[0]] + cs[1..];
      }
    }
  }

  /** Laying the batches end to end gives back the writes. */
  lemma {:induction false} ChunksConcat(ws: seq<Write>, n: nat)
    requires n > 0
    ensures Concat(Chunks(ws, n)) == ws
    decreases |ws|
  {
    if |ws| > n {
      ChunksConcat(ws[n..], n);
      assert ws == ws[..n] + ws[n..];
    } else if ws != [] {
      assert Concat([ws]) == ws + Concat([]);
    }
  }

  /** Every batch holds between 1 and n writes, and all but the last exactly n. */
  lemma {:induction false} ChunkSizes(ws: seq<Write>, n: nat)
    requires n > 0
    ensures forall i :: 0 <= i < |Chunks(ws, n)| ==> 0 < |Chunks(ws, n)[i]| <= n
    ensures forall i :: 0 <= i < |Chunks(ws, n)| - 1 ==> |Chunks(ws, n)[i]| == n
    decreases |ws|
  {
    if |ws| > n {
      ChunkSizes(ws[n..], n);
      var cs := Chunks(ws, n);
      assert cs == [ws[..n]] + Chunks(ws[n..], n);
      forall i | 0 < i < |cs| ensures cs[i] == Chunks(ws[n..], n)[i - 1] {
      }
    }
  }

  /** There are ceil(N / 500) batches of 500 for N writes. */
  lemma {:induction false} ChunkCount(ws: seq<Write>)
    ensures |Chunks(ws, MaxBatch)| == (|ws| + MaxBatch - 1) / MaxBatch
    decreases |ws|
  {
    if |ws| > MaxBatch {
      ChunkCount(ws[MaxBatch..]);
    }
  }

  /** The writes made for owner u. */
  function OwnedBy(u: string): Write -> bool { (w: Write) => w.owner == u }

  /** A list with no element satisfying p filters to nothing. */
  lemma FilterNone<T(!new)>(s: seq<T>, p: T -> bool)
    requires forall x :: x in s ==> !p(x)
    ensures Filter(s, p) == []
  {
    if Filter(s, p) != [] {
      assert Filter(s, p)[0] in Filter(s, p);
    }
  }

  /** An owner's segment holds only that owner's writes. */
  lemma SegmentOwnedBy(k: string, l: seq<SourceDoc>, u: string)
    ensures Filter(UserWrites(k, l), OwnedBy(u)) == if k == u then UserWrites(k, l) else []
  {
    var seg := UserWrites(k, l);
    if k == u {
      FilterAll(seg, OwnedBy(u));
    } else {
      FilterNone(seg, OwnedBy(u));
    }
  }

  /** In a list without repeats, an element is either the last one or in the rest, not both; the rest has no repeats. */
  lemma LastSplit<T(!new)>(s: seq<T>, x: T)
    requires Distinct(s) && s != []
    ensures Distinct(s[..|s| - 1])
    ensures x in s <==> x in s[..|s| - 1] || x == s[|s| - 1]
    ensures x == s[|s| - 1] ==> x !in s[..|s| - 1]
  {
    assert s == s[..|s| - 1] + [s[|s| - 1]];
  }

  /** Over distinct owners, the writes for u are u's own segment. */
  lemma {:induction false} PlanOfOwnedBy(keys: seq<string>, values: map<string, seq<SourceDoc>>, u: string)
    requires Distinct(keys)
    ensures Filter(PlanOf(keys, values), OwnedBy(u)) ==
      if u in keys && u in values then UserWrites(u, values[u]) else []
  {
    if keys != [] {
      var n := |keys| - 1;
      var k := keys[n];
      var l := if k in values then values[k] else [];
      var prefix := PlanOf(keys[..n], values);
      assert PlanOf(keys, values) == prefix + UserWrites(k, l);
      LastSplit(keys, u);
      PlanOfOwnedBy(keys[..n], values, u);
      FilterAppend(prefix, UserWrites(k, l), OwnedBy(u));
      SegmentOwnedBy(k, l, u);
    }
  }

  /**
   * Owner u's writes are u's documents in snapshot order, each written once
   * under its own id with its stripped data; a skipped document's owner has none.
   */
  lemma PlanPerUser(docs: seq<SourceDoc>, u: string)
    ensures Filter(Plan(docs), OwnedBy(u)) == UserWrites(u, Filter(docs, HasKey(Owner, u)))
  {
    var g := GroupBy(docs, Owner);
    GroupByWellFormed(docs, Owner);
    GroupByDomain(docs, Owner, u);
    PlanOfOwnedBy(g.keys, g.values, u);
  }

  /** Every write comes from a document of its owner. */
  lemma {:induction false} PlanOfMember(keys: seq<string>, values: map<string, seq<SourceDoc>>, w: Write)
    requires w in PlanOf(keys, values)
    ensures w.owner in keys && w.owner in values
    ensures exists d :: d in values[w.owner] && w == WriteOf(w.owner, d)
  {
    var n := |keys| - 1;
    var k := keys[n];
    var seg := UserWrites(k, if k in values then values[k] else []);
    if w in PlanOf(keys[..n], values) {
      PlanOfMember(keys[..n], values, w);
    } else {
      assert w in seg;
      var i :| 0 <= i < |seg| && seg[i] == w;
      assert w.owner == k;
    }
  }

  /** Every write is the write of an owned document of the snapshot. */
  lemma PlanWritesOwned(docs: seq<SourceDoc>, w: Write)
    requires w in Plan(docs)
    ensures exists d :: d in docs && Owner(d) == Some(w.owner) && w == WriteOf(w.owner, d)
  {
    var g := GroupBy(docs, Owner);
    PlanOfMember(g.keys, g.values, w);
    GroupByValues(docs, Owner);
    var d :| d in g.values[w.owner] && w == WriteOf(w.owner, d);
    assert d in Filter(docs, HasKey(Owner, w.owner));
  }

  /** Document ids are unique within the snapshot. */
  predicate UniqueIds(docs: seq<SourceDoc>)
  {
    forall i, j :: 0 <= i < j < |docs| ==> docs[i].id != docs[j].id
  }

  /** A document without an owner is never written. */
  lemma SkippedNeverWritten(docs: seq<SourceDoc>, k: int)
    requires UniqueIds(docs) && 0 <= k < |docs| && Owner(docs[k]).None?
    ensures forall w :: w in Plan(docs) ==> w.docId != docs[k].id
  {
    forall w | w in Plan(docs) ensures w.docId != docs[k].id {
      PlanWritesOwned(docs, w);
      var d :| d in docs && Owner(d) == Some(w.owner) && w == WriteOf(w.owner, d);
      var j :| 0 <= j < |docs| && docs[j] == d;
      assert j != k;
    }
  }

  /** The sizes of the owners' arrays add up to the length of the plan. */
  lemma {:induction false} PlanOfLength(keys: seq<string>, values: map<string, seq<SourceDoc>>, es: seq<(string, seq<SourceDoc>)>)
    requires |es| == |keys|
    requires forall i :: 0 <= i < |keys| ==> keys[i] in values && es[i] == (keys[i], values[keys[i]])
    ensures |PlanOf(keys, values)| == |Flatten(es)|
  {
    if keys != [] {
      var n := |keys| - 1;
      PlanOfLength(keys[..n], values, es[..n]);
    }
  }

  /** As many writes are made as there are owned documents. */
  lemma PlanLength(docs: seq<SourceDoc>)
    ensures |Plan(docs)| == |Filter(docs, Keyed(Owner))|
  {
    var g := GroupBy(docs, Owner);
    GroupByPartition(docs, Owner);
    var es := Entries(g);
    PlanOfLength(g.keys, g.values, es);
    assert |multiset(Flatten(es))| == |multiset(Filter(docs, Keyed(Owner)))|;
  }

  /** The number of commits is ceil(N / 500) for N owned documents; with none, nothing is committed. */
  lemma CommitCount(docs: seq<SourceDoc>)
    ensures |Chunks(Plan(docs), MaxBatch)| == (|Filter(docs, Keyed(Owner))| + MaxBatch - 1) / MaxBatch
    ensures Filter(docs, Keyed(Owner)) == [] ==> Chunks(Plan(docs), MaxBatch) == []
  {
    PlanLength(docs);
    ChunkCount(Plan(docs));
  }

  /** Unique ids carry over to a filtered list. */
  lemma FilterUniqueIds(s: seq<SourceDoc>, p: SourceDoc -> bool)
    requires UniqueIds(s)
    ensures UniqueIds(Filter(s, p))
  {
    FilterDistinct(s, p);
    var r := Filter(s, p);
    forall i, j | 0 <= i < j < |r| ensures r[i].id != r[j].id {
      assert r[i] in s && r[j] in s;
      var a :| 0 <= a < |s| && s[a] == r[i];
      var b :| 0 <= b < |s| && s[b] == r[j];
    }
  }

  /** No two writes share a target. */
  predicate DistinctTargets(ws: seq<Write>)
  {
    forall i, j :: 0 <= i < j < |ws| ==> ws[i].owner != ws[j].owner || ws[i].docId != ws[j].docId
  }

  /** Over distinct owners whose documents have unique ids, every write has its own target. */
  lemma {:induction false} PlanOfTargets(keys: seq<string>, values: map<string, seq<SourceDoc>>)
    requires Distinct(keys)
    requires forall k :: k in values ==> UniqueIds(values[k])
    ensures DistinctTargets(PlanOf(keys, values))
    ensures forall w :: w in PlanOf(keys, values) ==> w.owner in keys
  {
    if keys != [] {
      var n := |keys| - 1;
      var k := keys[n];
      var a := PlanOf(keys[..n], values);
      var l := if k in values then values[k] else [];
      var b := UserWrites(k, l);
      PlanOfTargets(keys[..n], values);
      assert k !in keys[..n];
      var p := a + b;
      forall i, j | 0 <= i < j < |p| ensures p[i].owner != p[j].owner || p[i].docId != p[j].docId {
        if j < |a| {
          assert p[i] == a[i] && p[j] == a[j];
        } else if i >= |a| {
          assert p[i] == WriteOf(k, l[i - |a|]) && p[j] == WriteOf(k, l[j - |a|]);
        } else {
          assert p[i] == a[i] && a[i] in a;
          assert p[j] == b[j - |a|];
        }
      }
      forall w | w in p ensures w.owner in keys {
        if w in a {
        } else {
          var i :| 0 <= i < |b| && b[i] == w;
        }
      }
    }
  }

  /** With unique document ids, no two writes of the migration go to the same document. */
  lemma PlanTargetsDistinct(docs: seq<SourceDoc>)
    requires UniqueIds(docs)
    ensures DistinctTargets(Plan(docs))
  {
    var g := GroupBy(docs, Owner);
    GroupByWellFormed(docs, Owner);
    GroupByValues(docs, Owner);
    forall k | k in g.values ensures UniqueIds(g.values[k]) {
      FilterUniqueIds(docs, HasKey(Owner, k));
    }
    PlanOfTargets(g.keys, g.values);
  }

  /**
   * The target document as the script picks it: it pushes `{ id: doc.id,
   * ...data }` and then takes `id` back out, so an `id` field in the data
   * replaces the document's own id.
   */
  function TargetAsWritten(d: SourceDoc): Json
  {
    if "id" in d.data then d.data["id"] else JString(d.id)
  }

  /**
   * Two documents of one owner whose data both carry `id: "x"` are written
   * to the same target as the script is written, so the second overwrites
   * the first; under their own ids they go to two targets.
   */
  lemma TargetCollision()
    ensures var a := SourceDoc("a", map["userId" := JString("u"), "id" := JString("x")]);
      var b := SourceDoc("b", map["userId" := JString("u"), "id" := JString("x")]);
      UniqueIds([a, b]) && Owner(a) == Owner(b) == Some("u") &&
      TargetAsWritten(a) == TargetAsWritten(b) &&
      WriteOf("u", a).docId != WriteOf("u", b).docId
  {
  }
}
