/**
 * The transaction list: the signed-in user's transactions grouped under
 * "Today", "Yesterday" or their date, and the optimistic delete that takes a
 * transaction out of the flat list and out of its group.
 */
module TransactionList {
  import opened Common
  import opened Ledger
  import opened Grouping

  /**
   * A group heading. The date heading ('MMMM d, yyyy') names exactly one
   * calendar day and never reads "Today" or "Yesterday", so it is modelled
   * by the day it names.
   */
  datatype GroupKey = Today | Yesterday | OnDate(day: int)

  /** The grouped state: a plain object from heading to its transactions. */
  type Groups = Dict<GroupKey, seq<Txn>>

  const LoadError: string := "Failed to load transactions"

  const EmptyMessage: string := "No transactions yet. Add your first one!"

  /** The heading of a transaction dated `date`, seen at the instant now. */
  function GroupOf(date: int, now: int): GroupKey
  {
    if Day(date) == Day(now) then Today
    else if Day(date) == Day(now) - 1 then Yesterday
    else OnDate(Day(date))
  }

  /** The calendar day a heading stands for. */
  function GroupDay(k: GroupKey, now: int): int
  {
    match k
    case Today => Day(now)
    case Yesterday => Day(now) - 1
    case OnDate(d) => d
  }

  /** The reduce's key for a transaction: its heading. */
  function DayKey(now: int): Txn -> Option<GroupKey> { (t: Txn) => Some(GroupOf(t.date, now)) }

  /** `t.id !== transactionId` */
  function NotId(id: string): Txn -> bool { (t: Txn) => t.id != id }

  /** The grouped object after the reduce has visited every transaction of ts, in order. */
  function Grouped(ts: seq<Txn>, now: int): Groups { GroupBy(ts, DayKey(now)) }

  /** The heading is determined by the calendar day alone, and names that day. */
  lemma GroupKeyDay(date: int, now: int)
    ensures GroupDay(GroupOf(date, now), now) == Day(date)
    ensures GroupOf(date, now) == Today <==> Day(date) == Day(now)
    ensures GroupOf(date, now) == Yesterday <==> Day(date) == Day(now) - 1
  {
  }

  /** Two transactions share a heading exactly when they fall on the same calendar day. */
  lemma SameGroupSameDay(a: int, b: int, now: int)
    ensures GroupOf(a, now) == GroupOf(b, now) <==> Day(a) == Day(b)
  {
    GroupKeyDay(a, now);
    GroupKeyDay(b, now);
  }

  /** Every transaction has a heading, so the key list is the list of headings. */
  lemma {:induction false} DayKeys(ts: seq<Txn>, now: int)
    ensures |KeysOf(ts, DayKey(now))| == |ts|
    ensures forall i :: 0 <= i < |ts| ==> KeysOf(ts, DayKey(now))[i] == GroupOf(ts[i].date, now)
  {
    if ts != [] {
      DayKeys(ts[..|ts| - 1], now);
    }
  }

  /**
   * Every transaction sits in exactly one group, its own day's, as often as
   * it occurs in the list.
   */
  lemma ExactlyOneGroup(ts: seq<Txn>, now: int, t: Txn)
    requires t in ts
    ensures GroupOf(t.date, now) in Grouped(ts, now).values
    ensures multiset(Grouped(ts, now).values[GroupOf(t.date, now)])[t] == multiset(ts)[t]
    ensures forall k :: k in Grouped(ts, now).values && t in Grouped(ts, now).values[k] ==> k == GroupOf(t.date, now)
  {
    var k := GroupOf(t.date, now);
    FilterKeeps(ts, HasKey(DayKey(now), k), t);
    GroupByDomain(ts, DayKey(now), k);
    GroupByValues(ts, DayKey(now));
    FilterCount(ts, HasKey(DayKey(now), k), t);
  }

  /** Headings appear in the order in which their days first occur in the list. */
  lemma GroupOrder(ts: seq<Txn>, now: int)
    ensures |KeysOf(ts, DayKey(now))| == |ts|
    ensures forall i :: 0 <= i < |ts| ==> KeysOf(ts, DayKey(now))[i] == GroupOf(ts[i].date, now)
    ensures Grouped(ts, now).keys == Dedup(KeysOf(ts, DayKey(now)))
    ensures var ks := Dedup(KeysOf(ts, DayKey(now)));
      forall i, j :: 0 <= i < j < |ks| ==>
        FirstIndex(KeysOf(ts, DayKey(now)), ks[i]) < FirstIndex(KeysOf(ts, DayKey(now)), ks[j])
  {
    DayKeys(ts, now);
    GroupByOrder(ts, DayKey(now));
  }

  /** The page lists every fetched transaction exactly as often as the list holds it. */
  lemma GroupedPartition(ts: seq<Txn>, now: int)
    ensures WellFormed(Grouped(ts, now))
    ensures multiset(Flatten(Entries(Grouped(ts, now)))) == multiset(ts)
  {
    GroupByPartition(ts, DayKey(now));
    FilterAll(ts, Keyed(DayKey(now)));
  }

  /** Deleting from one group: keep its other transactions, and drop the group when none is left. */
  function PruneKey(g: Groups, k: GroupKey, id: string): Groups
  {
    if k in g.values then
      var g1 := Put(g, k, Filter(g.values[k], NotId(id)));
      if g1.values[k] == [] then Delete(g1, k) else g1
    else g
  }

  /** The object after the forEach has visited the headings ks, in order. */
  function Pruned(g: Groups, ks: seq<GroupKey>, id: string): Groups
  {
    if ks == [] then g else PruneKey(Pruned(g, ks[..|ks| - 1], id), ks[|ks| - 1], id)
  }

  /** Whether heading k is still present once the headings ks have been visited. */
  function Kept(g: Groups, ks: seq<GroupKey>, id: string): GroupKey -> bool
  {
    (k: GroupKey) => k !in ks || (k in g.values && Filter(g.values[k], NotId(id)) != [])
  }

  /** One forEach step filters k's group and deletes k when the group is left empty. */
  lemma PruneKeyFacts(q: Groups, k: GroupKey, id: string)
    requires WellFormed(q) && k in q.values
    ensures WellFormed(PruneKey(q, k, id))
    ensures forall j :: j in PruneKey(q, k, id).values <==> j in q.values && (j != k || Filter(q.values[k], NotId(id)) != [])
    ensures forall j :: j in PruneKey(q, k, id).values ==>
      PruneKey(q, k, id).values[j] == if j == k then Filter(q.values[k], NotId(id)) else q.values[j]
    ensures PruneKey(q, k, id).keys == if Filter(q.values[k], NotId(id)) == [] then Filter(q.keys, Other(k)) else q.keys
  {
    var f := Filter(q.values[k], NotId(id));
    PutWellFormed(q, k, f);
    if f == [] {
      DeleteWellFormed(Put(q, k, f), k);
    }
  }

  /**
   * Visiting distinct headings of g filters out the id in exactly those
   * groups, drops the groups left empty and keeps the others.
   */
  lemma {:induction false} PrunedShape(g: Groups, ks: seq<GroupKey>, id: string)
    requires WellFormed(g) && Distinct(ks)
    requires forall k :: k in ks ==> k in g.values
    ensures WellFormed(Pruned(g, ks, id))
    ensures forall k :: k in Pruned(g, ks, id).values <==> k in g.values && Kept(g, ks, id)(k)
    ensures forall k :: k in Pruned(g, ks, id).values ==>
      Pruned(g, ks, id).values[k] == if k in ks then Filter(g.values[k], NotId(id)) else g.values[k]
  {
    if ks != [] {
      var n := |ks| - 1;
      var ks', k := ks[..n], ks[n];
      assert ks == ks' + [k];
      assert k !in ks';
      PrunedShape(g, ks', id);
      var q := Pruned(g, ks', id);
      assert k in q.values && q.values[k] == g.values[k];
      PruneKeyFacts(q, k, id);
      var r := PruneKey(q, k, id);
      assert Pruned(g, ks, id) == r;
      forall j ensures j in r.values <==> j in g.values && Kept(g, ks, id)(j) {
        assert j in ks <==> j in ks' || j == k;
      }
      forall j | j in r.values
        ensures r.values[j] == if j in ks then Filter(g.values[j], NotId(id)) else g.values[j]
      {
        assert j in ks <==> j in ks' || j == k;
      }
    }
  }

  /** The surviving headings keep their relative order. */
  lemma {:induction false} PrunedKeys(g: Groups, ks: seq<GroupKey>, id: string)
    requires WellFormed(g) && Distinct(ks)
    requires forall k :: k in ks ==> k in g.values
    ensures Pruned(g, ks, id).keys == Filter(g.keys, Kept(g, ks, id))
  {
    if ks == [] {
      FilterAll(g.keys, Kept(g, ks, id));
    } else {
      var n := |ks| - 1;
      var ks', k := ks[..n], ks[n];
      assert ks == ks' + [k];
      assert k !in ks';
      PrunedKeys(g, ks', id);
      PrunedShape(g, ks', id);
      var q := Pruned(g, ks', id);
      assert k in q.values && q.values[k] == g.values[k];
      PruneKeyFacts(q, k, id);
      if Filter(g.values[k], NotId(id)) == [] {
        FilterFilter(g.keys, Kept(g, ks', id), Other(k), Kept(g, ks, id));
      } else {
        FilterAgree(g.keys, Kept(g, ks', id), Kept(g, ks, id));
      }
    }
  }

  /** A heading not yet visited is still present with its original group. */
  lemma PrunedHas(g: Groups, ks: seq<GroupKey>, id: string, k: GroupKey)
    requires WellFormed(g) && Distinct(ks)
    requires forall j :: j in ks ==> j in g.values
    requires k in g.values && k !in ks
    ensures k in Pruned(g, ks, id).values && Pruned(g, ks, id).values[k] == g.values[k]
  {
    PrunedShape(g, ks, id);
  }

  /** The forEach's visit of the i-th heading finds its original group and takes one PruneKey step. */
  lemma PruneVisit(g: Groups, i: int, id: string)
    requires WellFormed(g) && 0 <= i < |g.keys|
    ensures var q, k := Pruned(g, g.keys[..i], id), g.keys[i];
      && k in q.values && q.values[k] == g.values[k]
      && Pruned(g, g.keys[..i + 1], id) == PruneKey(q, k, id)
  {
    var ks, k := g.keys[..i], g.keys[i];
    assert g.keys[..i + 1][..i] == ks;
    assert k !in ks;
    assert Distinct(ks);
    PrunedHas(g, ks, id, k);
  }

  /**
   * handleDelete's update of the grouped object: filter every group, in key
   * order, and delete the groups that end up empty.
   */
  method RemoveFromGroups(prev: Groups, id: string) returns (next: Groups)
    requires WellFormed(prev)
    ensures next == Pruned(prev, prev.keys, id)
    ensures WellFormed(next)
    ensures forall k :: k in next.values <==> k in prev.values && Filter(prev.values[k], NotId(id)) != []
    ensures forall k :: k in next.values ==> k in prev.values && next.values[k] == Filter(prev.values[k], NotId(id))
    ensures next.keys == Filter(prev.keys, Kept(prev, prev.keys, id))
  {
    next := prev;
    var keys := prev.keys;
    var i := 0;
    while i < |keys|
      invariant 0 <= i <= |keys|
      invariant next == Pruned(prev, keys[..i], id)
    {
      var k := keys[i];
      PruneVisit(prev, i, id);
      next := Put(next, k, Filter(next.values[k], NotId(id)));
      if next.values[k] == [] {
        next := Delete(next, k);
      }
      i := i + 1;
    }
    assert keys[..|keys|] == keys;
    PrunedAll(prev, id);
  }

  /** Visiting every heading: the groups filtered by id, the empty ones gone, the order kept. */
  lemma PrunedAll(g: Groups, id: string)
    requires WellFormed(g)
    ensures WellFormed(Pruned(g, g.keys, id))
    ensures forall k :: k in Pruned(g, g.keys, id).values <==> k in g.values && Filter(g.values[k], NotId(id)) != []
    ensures forall k :: k in Pruned(g, g.keys, id).values ==>
      k in g.values && Pruned(g, g.keys, id).values[k] == Filter(g.values[k], NotId(id))
    ensures Pruned(g, g.keys, id).keys == Filter(g.keys, Kept(g, g.keys, id))
  {
    PrunedShape(g, g.keys, id);
    PrunedKeys(g, g.keys, id);
  }

  /** After a delete no group holds the id, and a group that never held it is unchanged. */
  lemma PruneSpares(g: Groups, id: string, k: GroupKey)
    requires WellFormed(g)
    ensures forall j, t :: j in Pruned(g, g.keys, id).values && t in Pruned(g, g.keys, id).values[j] ==> t.id != id
    ensures k in g.values && g.values[k] != [] && (forall t :: t in g.values[k] ==> t.id != id) ==>
      k in Pruned(g, g.keys, id).values && Pruned(g, g.keys, id).values[k] == g.values[k]
  {
    PrunedShape(g, g.keys, id);
    if k in g.values {
      FilterAll(g.values[k], NotId(id));
    }
  }

  /** Both orders of filtering by day and by id pick the same transactions. */
  lemma DayThenId(ts: seq<Txn>, now: int, id: string, k: GroupKey)
    ensures Filter(Filter(ts, HasKey(DayKey(now), k)), NotId(id)) == Filter(Filter(ts, NotId(id)), HasKey(DayKey(now), k))
  {
    var both := (t: Txn) => GroupOf(t.date, now) == k && t.id != id;
    FilterFilter(ts, HasKey(DayKey(now), k), NotId(id), both);
    FilterFilter(ts, NotId(id), HasKey(DayKey(now), k), both);
  }

  /** One heading of DeleteMatchesRegroup. */
  lemma RegroupAt(ts: seq<Txn>, now: int, id: string, k: GroupKey)
    ensures var g, h := Pruned(Grouped(ts, now), Grouped(ts, now).keys, id), Grouped(Filter(ts, NotId(id)), now);
      && (k in g.values <==> k in h.values)
      && (k in g.values ==> g.values[k] == h.values[k])
  {
    var g0 := Grouped(ts, now);
    var rest := Filter(ts, NotId(id));
    GroupByWellFormed(ts, DayKey(now));
    PrunedShape(g0, g0.keys, id);
    GroupByDomain(ts, DayKey(now), k);
    GroupByDomain(rest, DayKey(now), k);
    DayThenId(ts, now, id, k);
  }

  /**
   * Deleting from the groups leaves the same groups, with the same contents,
   * as grouping the filtered flat list afresh. Only the key order may
   * differ: a surviving heading keeps its old place.
   */
  lemma DeleteMatchesRegroup(ts: seq<Txn>, now: int, id: string)
    ensures var g, h := Pruned(Grouped(ts, now), Grouped(ts, now).keys, id), Grouped(Filter(ts, NotId(id)), now);
      && (forall k :: k in g.values <==> k in h.values)
      && (forall k :: k in g.values ==> g.values[k] == h.values[k])
  {
    forall k
      ensures var g, h := Pruned(Grouped(ts, now), Grouped(ts, now).keys, id), Grouped(Filter(ts, NotId(id)), now);
        && (k in g.values <==> k in h.values)
        && (k in g.values ==> g.values[k] == h.values[k])
    {
      RegroupAt(ts, now, id, k);
    }
  }

  /** The grouping of a list dated day x, day y, day x: two headings, x first. */
  lemma ScatteredGroups(a: Txn, b: Txn, c: Txn, now: int)
    requires GroupOf(a.date, now) == GroupOf(c.date, now) != GroupOf(b.date, now)
    ensures var x, y, g := GroupOf(a.date, now), GroupOf(b.date, now), Grouped([a, b, c], now);
      && g.keys == [x, y] && x in g.values && y in g.values
      && g.values[x] == [a, c] && g.values[y] == [b]
  {
    var key := DayKey(now);
    var x, y := GroupOf(a.date, now), GroupOf(b.date, now);
    assert [a, b, c][..2] == [a, b] && [a, b][..1] == [a] && [a][..0] == [];
    assert GroupBy([], key) == Dict([], map[]);
    var g1 := GroupBy([a], key);
    assert g1 == AddTo(GroupBy([], key), x, a);
    var g2 := GroupBy([a, b], key);
    assert g2 == AddTo(g1, y, b);
    assert Grouped([a, b, c], now) == AddTo(g2, x, c);
  }

  /** Regrouping a list dated day y, day x: two headings, y first. */
  lemma PairGroups(b: Txn, c: Txn, now: int)
    requires GroupOf(c.date, now) != GroupOf(b.date, now)
    ensures Grouped([b, c], now).keys == [GroupOf(b.date, now), GroupOf(c.date, now)]
  {
    var key := DayKey(now);
    assert [b, c][..1] == [b] && [b][..0] == [];
    assert GroupBy([], key) == Dict([], map[]);
    assert GroupBy([b], key) == AddTo(GroupBy([], key), GroupOf(b.date, now), b);
  }

  /** Dropping the first transaction's id from a list dated day x, day y, day x. */
  lemma ScatteredFilter(a: Txn, b: Txn, c: Txn)
    requires b.id != a.id && c.id != a.id
    ensures Filter([a, b, c], NotId(a.id)) == [b, c]
    ensures Filter([a, c], NotId(a.id)) == [c]
    ensures Filter([b], NotId(a.id)) == [b]
  {
    var p := NotId(a.id);
    assert !p(a) && p(b) && p(c);
    assert [a, b, c][..2] == [a, b] && [a, b][..1] == [a] && [a, c][..1] == [a];
    assert [a][..0] == [] && [b][..0] == [];
    assert Filter([a], p) == [];
    assert Filter([a, b], p) == [b];
  }

  /** Deleting the first transaction from that grouping keeps both headings, x first. */
  lemma ScatteredPruned(g: Groups, x: GroupKey, y: GroupKey, id: string, b: Txn, c: Txn)
    requires x != y && g.keys == [x, y] && x in g.values && y in g.values
    requires Filter(g.values[x], NotId(id)) == [c] && Filter(g.values[y], NotId(id)) == [b]
    ensures Pruned(g, g.keys, id).keys == [x, y]
  {
    assert [x, y][..1] == [x] && [x][..0] == [];
    var g1 := PruneKey(g, x, id);
    assert g1 == Put(g, x, [c]);
    assert g1.keys == [x, y] && y in g1.values && g1.values[y] == g.values[y];
    assert Pruned(g, [x], id) == PruneKey(Pruned(g, [], id), x, id) == g1;
    assert Pruned(g, [x, y], id) == PruneKey(g1, y, id) == Put(g1, y, [b]);
  }

  /**
   * When a day's transactions do not stand together the heading order can
   * differ: in a list dated day x, day y, day x, deleting the first one keeps
   * x's heading first, while regrouping the rest puts y's heading first.
   */
  lemma DeleteReordersScattered(a: Txn, b: Txn, c: Txn, now: int)
    requires GroupOf(a.date, now) == GroupOf(c.date, now) != GroupOf(b.date, now)
    requires b.id != a.id && c.id != a.id
    ensures var x, y, ts := GroupOf(a.date, now), GroupOf(b.date, now), [a, b, c];
      && Pruned(Grouped(ts, now), Grouped(ts, now).keys, a.id).keys == [x, y]
      && Grouped(Filter(ts, NotId(a.id)), now).keys == [y, x]
  {
    ScatteredGroups(a, b, c, now);
    ScatteredFilter(a, b, c);
    ScatteredPruned(Grouped([a, b, c], now), GroupOf(a.date, now), GroupOf(b.date, now), a.id, b, c);
    PairGroups(b, c, now);
  }

  /** Dated newest first, the order in which the API lists a user's transactions. */
  predicate NewestFirst(ts: seq<Txn>)
  {
    forall i, j :: 0 <= i < j < |ts| ==> ts[j].date <= ts[i].date
  }

  /** In a newest-first list the transactions of each day stand together. */
  lemma NewestFirstContiguous(ts: seq<Txn>, now: int)
    requires NewestFirst(ts)
    ensures Contiguous(KeysOf(ts, DayKey(now)))
  {
    DayKeys(ts, now);
    var s := KeysOf(ts, DayKey(now));
    forall i, j, l | 0 <= i < j < l < |s| && s[i] == s[l] ensures s[j] == s[i] {
      SameGroupSameDay(ts[i].date, ts[l].date, now);
      SameGroupSameDay(ts[i].date, ts[j].date, now);
      DayMonotone(ts[l].date, ts[j].date);
      DayMonotone(ts[j].date, ts[i].date);
    }
  }

  /** A heading visited by the delete survives exactly when the fresh grouping of the rest has it. */
  lemma KeptIsRegrouped(ts: seq<Txn>, now: int, id: string, k: GroupKey)
    requires k in Grouped(ts, now).keys
    ensures Kept(Grouped(ts, now), Grouped(ts, now).keys, id)(k) <==> k in KeysOf(Filter(ts, NotId(id)), DayKey(now))
  {
    var g0 := Grouped(ts, now);
    GroupByWellFormed(ts, DayKey(now));
    GroupByWellFormed(Filter(ts, NotId(id)), DayKey(now));
    PrunedShape(g0, g0.keys, id);
    RegroupAt(ts, now, id, k);
  }

  /**
   * For a newest-first list, deleting from the groups also leaves the
   * headings in the order a fresh grouping of the filtered list gives them.
   */
  lemma DeleteKeepsOrder(ts: seq<Txn>, now: int, id: string)
    requires NewestFirst(ts)
    ensures Pruned(Grouped(ts, now), Grouped(ts, now).keys, id).keys == Grouped(Filter(ts, NotId(id)), now).keys
  {
    var g0 := Grouped(ts, now);
    var rest := KeysOf(Filter(ts, NotId(id)), DayKey(now));
    GroupByWellFormed(ts, DayKey(now));
    PrunedAll(g0, id);
    GroupByKeys(ts, DayKey(now));
    GroupByKeys(Filter(ts, NotId(id)), DayKey(now));
    forall k | k in g0.keys ensures Kept(g0, g0.keys, id)(k) == InSeq(rest)(k) {
      KeptIsRegrouped(ts, now, id, k);
    }
    FilterAgree(g0.keys, Kept(g0, g0.keys, id), InSeq(rest));
    NewestFirstContiguous(ts, now);
    KeptKeyOrder(ts, DayKey(now), NotId(id));
  }

  /** What the component renders. */
  datatype ListView =
    | Spinner
    | Failed(message: string)
    | NoTransactions(message: string)
    | Sections(entries: seq<(GroupKey, seq<Txn>)>)

  /** The component's state. */
  class TransactionListView {
    var transactions: seq<Txn>
    var loading: bool
    var error: string
    var grouped: Groups

    ghost predicate Valid()
      reads this
    {
      WellFormed(grouped)
    }

    constructor ()
      ensures Valid()
      ensures transactions == [] && loading && error == "" && grouped == Dict([], map[])
    {
      transactions := [];
      loading := true;
      error := "";
      grouped := Dict([], map[]);
    }

    /**
     * fetchTransactions: nothing happens without a signed-in user. `fetched`
     * is what transactionApi.getAll() resolved to, or None when it threw;
     * `now` is the clock reading used for "Today" and "Yesterday". On
     * success the list and its grouping are replaced and an earlier error
     * text stays; on failure both are kept and the fixed error text is set.
     */
    method FetchTransactions(signedIn: bool, fetched: Option<seq<Txn>>, now: int)
      requires Valid()
      modifies this
      ensures Valid()
      ensures !signedIn ==> unchanged(this)
      ensures signedIn ==> !loading
      ensures signedIn && fetched.Some? ==>
        transactions == fetched.value && grouped == Grouped(fetched.value, now) && error == old(error)
      ensures signedIn && fetched.None? ==>
        transactions == old(transactions) && grouped == old(grouped) && error == LoadError
    {
      if !signedIn {
        return;
      }
      loading := true;
      match fetched {
        case Some(ts) =>
          transactions := ts;
          grouped := GroupTransactions(ts, now);
        case None =>
          error := LoadError;
      }
      loading := false;
    }

    /**
     * handleDelete: without a user, when the confirmation is declined, or
     * when the API call fails (`deleted` false) nothing changes; otherwise
     * the id leaves the flat list and every group, and emptied groups go.
     */
    method HandleDelete(signedIn: bool, id: string, confirmed: bool, deleted: bool)
      requires Valid()
      modifies this
      ensures Valid()
      ensures !(signedIn && confirmed && deleted) ==> unchanged(this)
      ensures signedIn && confirmed && deleted ==>
        && transactions == Filter(old(transactions), NotId(id))
        && grouped == Pruned(old(grouped), old(grouped).keys, id)
        && loading == old(loading) && error == old(error)
    {
      if !signedIn {
        return;
      }
      if confirmed && deleted {
        transactions := Filter(transactions, NotId(id));
        grouped := RemoveFromGroups(grouped, id);
      }
    }

    /**
     * The spinner while loading, then the error, then the empty message,
     * then one section per heading, in key order.
     */
    function Render(): (v: ListView)
      reads this
      requires Valid()
      ensures v == Spinner <==> loading
      ensures v.Failed? <==> !loading && error != ""
      ensures v.Failed? ==> v.message == error
      ensures v.NoTransactions? <==> !loading && error == "" && transactions == []
      ensures v.Sections? ==> |v.entries| == |grouped.keys|
      ensures v.Sections? ==> forall i :: 0 <= i < |v.entries| ==> v.entries[i].0 == grouped.keys[i]
      ensures v.Sections? ==>
        forall i :: 0 <= i < |v.entries| ==> v.entries[i].1 == grouped.values[v.entries[i].0]
    {
      if loading then Spinner
      else if error != "" then Failed(error)
      else if transactions == [] then NoTransactions(EmptyMessage)
      else Sections(Entries(grouped))
    }
  }

  /**
   * Once a fetch has shown a non-empty list, the page shows sections, and
   * they list every fetched transaction exactly as often as the list holds it.
   */
  lemma RenderListsAll(view: TransactionListView, now: int)
    requires view.Valid() && !view.loading && view.error == "" && view.transactions != []
    requires view.grouped == Grouped(view.transactions, now)
    ensures view.Render().Sections?
    ensures multiset(Flatten(view.Render().entries)) == multiset(view.transactions)
  {
    GroupedPartition(view.transactions, now);
    assert view.Render().entries == Entries(view.grouped);
  }

  /** The reduce in fetchTransactions, as a loop over the fetched list. */
  method GroupTransactions(ts: seq<Txn>, now: int) returns (grouped: Groups)
    ensures grouped == Grouped(ts, now)
    ensures WellFormed(grouped)
    ensures grouped.keys == Dedup(KeysOf(ts, DayKey(now)))
    ensures forall k :: k in grouped.values ==>
      grouped.values[k] == Filter(ts, HasKey(DayKey(now), k)) && grouped.values[k] != []
  {
    grouped := Dict([], map[]);
    var i := 0;
    while i < |ts|
      invariant 0 <= i <= |ts|
      invariant grouped == GroupBy(ts[..i], DayKey(now))
    {
      var t := ts[i];
      var k := GroupOf(t.date, now);
      if k !in grouped.values {
        grouped := Put(grouped, k, []);
      }
      grouped := Put(grouped, k, grouped.values[k] + [t]);
      assert ts[..i + 1][..i] == ts[..i];
      i := i + 1;
    }
    assert ts[..|ts|] == ts;
    GroupByWellFormed(ts, DayKey(now));
    GroupByKeys(ts, DayKey(now));
    GroupByValues(ts, DayKey(now));
    forall k | k in grouped.values ensures grouped.values[k] != [] {
      GroupByDomain(ts, DayKey(now), k);
    }
  }
}
