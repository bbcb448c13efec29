/**
 * The transaction record the dashboard and list views consume, local time,
 * and the sum of amounts that every aggregation in the app is built from.
 *
 * Time: an instant is an `int` counting milliseconds of local time since
 * local midnight of 1970-01-01, so calendar day n runs from n * DayMs to
 * n * DayMs + DayMs - 1 (date-fns startOfDay and endOfDay).
 */
module Ledger {
  import opened Common

  const DayMs: int := 86400000

  /**
   * A transaction as the API returns it. `kind` is the `type` field; it is a
   * string because nothing on the server restricts it to income/expense.
   * `amount` is exact: binary floating-point drift is not modelled.
   */
  datatype Txn = Txn(
    id: string,
    amount: real,
    kind: string,
    category: string,
    note: Option<string>,
    date: int,
    createdAt: int)

  /** Calendar day of an instant (floor division: days before 1970 are negative). */
  function Day(t: int): int { t / DayMs }

  function DayStart(d: int): int { d * DayMs }

  function DayEnd(d: int): int { d * DayMs + DayMs - 1 }

  /** An instant lies between its day's start and end, and in no other day's. */
  lemma DayBounds(t: int, d: int)
    ensures DayStart(d) <= t <= DayEnd(d) <==> Day(t) == d
  {
    var q := t / DayMs;
    assert t == q * DayMs + t % DayMs;
    if d < q {
      assert DayEnd(d) < DayStart(q);
    } else if q < d {
      assert DayEnd(q) < DayStart(d);
    }
  }

  /** A later instant never falls on an earlier day. */
  lemma DayMonotone(a: int, b: int)
    requires a <= b
    ensures Day(a) <= Day(b)
  {
    DayBounds(a, Day(a));
    DayBounds(b, Day(b));
  }

  /** Day of week, 0 = Sunday … 6 = Saturday; 1970-01-01 was a Thursday. */
  function Weekday(d: int): (w: int)
    ensures 0 <= w < 7
  {
    (d + 4) % 7
  }

  /** date-fns startOfWeek(·, { weekStartsOn: 1 }) on days: the Monday on or before d. */
  function MondayOf(d: int): (m: int)
    ensures m <= d < m + 7
    ensures Weekday(m) == 1
  {
    d - (Weekday(d) + 6) % 7
  }

  /** Moving a whole number of weeks moves the Monday by the same amount. */
  lemma MondayShift(d: int, k: int)
    ensures MondayOf(d - 7 * k) == MondayOf(d) - 7 * k
  {
    assert (d - 7 * k + 4) % 7 == (d + 4) % 7 by {
      assert d - 7 * k + 4 == (d + 4) + 7 * (-k);
    }
  }

  predicate IsIncome(t: Txn) { t.kind == "income" }

  predicate IsExpense(t: Txn) { t.kind == "expense" }

  /** `reduce((sum, t) => sum + t.amount, 0)`, folding from the left. */
  function Total(s: seq<Txn>): real
  {
    if s == [] then 0.0 else Total(s[..|s| - 1]) + s[|s| - 1].amount
  }

  lemma {:induction false} TotalAppend(a: seq<Txn>, b: seq<Txn>)
    ensures Total(a + b) == Total(a) + Total(b)
  {
    if b == [] {
      assert a + b == a;
    } else {
      var n := |b| - 1;
      assert (a + b)[..|a + b| - 1] == a + b[..n];
      TotalAppend(a, b[..n]);
    }
  }

  /** Taking out the element at i removes one occurrence of it. */
  lemma RemoveAt<T>(b: seq<T>, i: int)
    requires 0 <= i < |b|
    ensures multiset(b[..i] + b[i + 1..]) == multiset(b) - multiset{b[i]}
  {
    assert b == b[..i] + [b[i]] + b[i + 1..];
  }

  /** The total is the total without the element at i plus its amount. */
  lemma TotalRemoveAt(b: seq<Txn>, i: int)
    requires 0 <= i < |b|
    ensures Total(b) == Total(b[..i] + b[i + 1..]) + b[i].amount
  {
    var x, u, v := b[i], b[..i], b[i + 1..];
    assert b == u + ([x] + v);
    TotalAppend(u, [x] + v);
    TotalCons(x, v);
    TotalAppend(u, v);
  }

  /** Putting one transaction in front adds its amount. */
  lemma TotalCons(x: Txn, v: seq<Txn>)
    ensures Total([x] + v) == x.amount + Total(v)
  {
    TotalAppend([x], v);
    assert [x][..0] == [];
  }

  /** The total depends only on which transactions there are, not on their order. */
  lemma {:induction false} TotalPermutation(a: seq<Txn>, b: seq<Txn>)
    requires multiset(a) == multiset(b)
    ensures Total(a) == Total(b)
  {
    if a == [] {
      assert |multiset(b)| == 0;
    } else {
      var n := |a| - 1;
      var x := a[n];
      assert multiset(a[..n]) == multiset(a) - multiset{x} by {
        assert a == a[..n] + [x];
      }
      assert x in multiset(b);
      var i :| 0 <= i < |b| && b[i] == x;
      RemoveAt(b, i);
      TotalPermutation(a[..n], b[..i] + b[i + 1..]);
      TotalRemoveAt(b, i);
    }
  }

  /** Filtering then summing gives the same result for any reordering of the input. */
  lemma FilteredTotalPermutation(a: seq<Txn>, b: seq<Txn>, p: Txn -> bool)
    requires multiset(a) == multiset(b)
    ensures Total(Filter(a, p)) == Total(Filter(b, p))
  {
    forall x ensures multiset(Filter(a, p))[x] == multiset(Filter(b, p))[x] {
      FilterCount(a, p, x);
      FilterCount(b, p, x);
    }
    assert multiset(Filter(a, p)) == multiset(Filter(b, p));
    TotalPermutation(Filter(a, p), Filter(b, p));
  }

  /** Summing a filtered list adds the amount of a new last element exactly when it passes. */
  lemma FilteredTotalSnoc(s: seq<Txn>, t: Txn, p: Txn -> bool)
    ensures Total(Filter(s + [t], p)) == Total(Filter(s, p)) + (if p(t) then t.amount else 0.0)
  {
    assert (s + [t])[..|s|] == s;
    if p(t) {
      var f := Filter(s, p) + [t];
      assert f[..|f| - 1] == Filter(s, p);
    } else {
      assert Filter(s + [t], p) == Filter(s, p);
    }
  }

  /** The inclusive window test both trend charts use: `date >= start && date <= end`. */
  predicate InSpan(t: Txn, lo: int, hi: int) { lo <= t.date <= hi }

  function SpanIn(lo: int, hi: int): Txn -> bool { t => InSpan(t, lo, hi) }

  function IncomeIn(lo: int, hi: int): Txn -> bool { t => InSpan(t, lo, hi) && IsIncome(t) }

  /** The trend charts put every transaction whose type is not "income" on the expense side. */
  function OtherIn(lo: int, hi: int): Txn -> bool { t => InSpan(t, lo, hi) && !IsIncome(t) }

  /** A chart bucket: a window [start, end] of instants and the sums collected for it. */
  datatype Bucket = Bucket(caption: string, start: int, end: int, income: real, expense: real)

  /** The bucket for [start, end] once every transaction of ts has been visited. */
  function Tally(ts: seq<Txn>, caption: string, start: int, end: int): Bucket
  {
    Bucket(caption, start, end, Total(Filter(ts, IncomeIn(start, end))), Total(Filter(ts, OtherIn(start, end))))
  }

  /** Visiting one more transaction adds its amount to income or expense exactly when it lies in the window. */
  lemma TallySnoc(ts: seq<Txn>, t: Txn, caption: string, start: int, end: int)
    ensures Tally(ts + [t], caption, start, end).income
         == Tally(ts, caption, start, end).income + (if InSpan(t, start, end) && IsIncome(t) then t.amount else 0.0)
    ensures Tally(ts + [t], caption, start, end).expense
         == Tally(ts, caption, start, end).expense + (if InSpan(t, start, end) && !IsIncome(t) then t.amount else 0.0)
  {
    FilteredTotalSnoc(ts, t, IncomeIn(start, end));
    FilteredTotalSnoc(ts, t, OtherIn(start, end));
  }

  /** One step of the charts' inner loop: add t to b when t lies in b's window. */
  function Visit(b: Bucket, t: Txn): Bucket
  {
    if !InSpan(t, b.start, b.end) then b
    else if IsIncome(t) then b.(income := b.income + t.amount)
    else b.(expense := b.expense + t.amount)
  }

  /**
   * The charts' inner forEach over the buckets: every bucket whose window
   * holds t.date gets t's amount, as income for an "income" transaction and
   * as expense otherwise.
   */
  method VisitAll(buckets: array<Bucket>, t: Txn)
    modifies buckets
    ensures forall i :: 0 <= i < buckets.Length ==> buckets[i] == Visit(old(buckets[i]), t)
  {
    var j := 0;
    while j < buckets.Length
      invariant 0 <= j <= buckets.Length
      invariant forall i :: 0 <= i < j ==> buckets[i] == Visit(old(buckets[i]), t)
      invariant forall i :: j <= i < buckets.Length ==> buckets[i] == old(buckets[i])
    {
      var b := buckets[j];
      if t.date >= b.start && t.date <= b.end {
        if t.kind == "income" {
          buckets[j] := b.(income := b.income + t.amount);
        } else {
          buckets[j] := b.(expense := b.expense + t.amount);
        }
      }
      j := j + 1;
    }
  }

  /** Visiting one more transaction turns the tally of ts into the tally of ts + [t]. */
  lemma VisitTally(ts: seq<Txn>, t: Txn, caption: string, start: int, end: int)
    ensures Visit(Tally(ts, caption, start, end), t) == Tally(ts + [t], caption, start, end)
  {
    TallySnoc(ts, t, caption, start, end);
    var b, b' := Tally(ts, caption, start, end), Tally(ts + [t], caption, start, end);
    assert b'.caption == b.caption && b'.start == b.start && b'.end == b.end;
  }

  /** Income plus expense of a window is the total of everything dated in it. */
  lemma {:induction false} SpanSplit(ts: seq<Txn>, lo: int, hi: int)
    ensures Total(Filter(ts, IncomeIn(lo, hi))) + Total(Filter(ts, OtherIn(lo, hi)))
         == Total(Filter(ts, SpanIn(lo, hi)))
  {
    if ts != [] {
      var n := |ts| - 1;
      assert ts == ts[..n] + [ts[n]];
      SpanSplit(ts[..n], lo, hi);
      FilteredTotalSnoc(ts[..n], ts[n], IncomeIn(lo, hi));
      FilteredTotalSnoc(ts[..n], ts[n], OtherIn(lo, hi));
      FilteredTotalSnoc(ts[..n], ts[n], SpanIn(lo, hi));
    }
  }

  /** Two adjacent windows together collect what their union collects. */
  lemma {:induction false} SpanJoin(ts: seq<Txn>, lo: int, mid: int, hi: int)
    requires lo <= mid <= hi + 1
    ensures Total(Filter(ts, SpanIn(lo, mid - 1))) + Total(Filter(ts, SpanIn(mid, hi)))
         == Total(Filter(ts, SpanIn(lo, hi)))
  {
    if ts != [] {
      var n := |ts| - 1;
      assert ts == ts[..n] + [ts[n]];
      SpanJoin(ts[..n], lo, mid, hi);
      FilteredTotalSnoc(ts[..n], ts[n], SpanIn(lo, mid - 1));
      FilteredTotalSnoc(ts[..n], ts[n], SpanIn(mid, hi));
      FilteredTotalSnoc(ts[..n], ts[n], SpanIn(lo, hi));
    }
  }

  /** Sum of income plus expense over all buckets. */
  function BucketSum(bs: seq<Bucket>): real
  {
    if bs == [] then 0.0 else bs[0].income + bs[0].expense + BucketSum(bs[1..])
  }

  /** Each window is non-empty and the next one starts right after it ends. */
  predicate Chained(bs: seq<Bucket>)
  {
    && (forall i :: 0 <= i < |bs| ==> bs[i].start <= bs[i].end)
    && (forall i :: 0 <= i < |bs| - 1 ==> bs[i].end + 1 == bs[i + 1].start)
  }

  /** Chained windows are pairwise disjoint, oldest first. */
  lemma {:induction false} ChainedDisjoint(bs: seq<Bucket>, i: int, j: int)
    requires Chained(bs) && 0 <= i < j < |bs|
    ensures bs[i].end < bs[j].start
  {
    if j > i + 1 {
      ChainedDisjoint(bs, i, j - 1);
    }
  }

  /** A bucket holds its window's total when its income and expense together sum everything dated in it. */
  predicate HoldsWindow(ts: seq<Txn>, b: Bucket)
  {
    b.income + b.expense == Total(Filter(ts, SpanIn(b.start, b.end)))
  }

  /** A tally holds its window's total. */
  lemma TallyHoldsWindow(ts: seq<Txn>, caption: string, start: int, end: int)
    ensures HoldsWindow(ts, Tally(ts, caption, start, end))
  {
    SpanSplit(ts, start, end);
  }

  /**
   * Conservation: when every bucket holds its window's total and the windows
   * are chained, the buckets together hold exactly the amounts of the
   * transactions dated from the first window's start to the last window's end.
   */
  lemma {:induction false} ChainConservation(ts: seq<Txn>, bs: seq<Bucket>)
    requires |bs| > 0 && Chained(bs)
    requires forall i :: 0 <= i < |bs| ==> HoldsWindow(ts, bs[i])
    ensures BucketSum(bs) == Total(Filter(ts, SpanIn(bs[0].start, bs[|bs| - 1].end)))
  {
    if |bs| > 1 {
      var rest := bs[1..];
      ChainedTail(ts, bs);
      ChainConservation(ts, rest);
      ChainedDisjoint(bs, 0, |bs| - 1);
      JoinWindow(ts, bs[0], BucketSum(rest), bs[|bs| - 1].end);
    }
  }

  /** The buckets after the first are chained and hold their windows, and start right after the first. */
  lemma ChainedTail(ts: seq<Txn>, bs: seq<Bucket>)
    requires |bs| > 1 && Chained(bs)
    requires forall i :: 0 <= i < |bs| ==> HoldsWindow(ts, bs[i])
    ensures Chained(bs[1..])
    ensures forall i :: 0 <= i < |bs[1..]| ==> HoldsWindow(ts, bs[1..][i])
    ensures bs[1..][0].start == bs[0].end + 1 && bs[1..][|bs[1..]| - 1] == bs[|bs| - 1]
  {
  }

  /** A bucket followed by buckets holding the rest of the span hold the whole span. */
  lemma JoinWindow(ts: seq<Txn>, b: Bucket, restSum: real, hi: int)
    requires HoldsWindow(ts, b) && b.start <= b.end < hi
    requires restSum == Total(Filter(ts, SpanIn(b.end + 1, hi)))
    ensures b.income + b.expense + restSum == Total(Filter(ts, SpanIn(b.start, hi)))
  {
    SpanJoin(ts, b.start, b.end + 1, hi);
  }
}
