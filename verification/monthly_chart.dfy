/**
 * The "this month" pie chart: the current calendar month's expenses, summed
 * per category, one slice per category in the order categories first occur.
 */
module MonthlyChart {
  import opened Common
  import opened Ledger

  /**
   * getMonth() and getFullYear() of the transaction's date agree with
   * today's. The local calendar is the parameter cal, mapping a day number to
   * its (year, month); every property below holds for any calendar.
   */
  predicate SameMonth(t: Txn, now: int, cal: int -> (int, int)) { cal(Day(t.date)) == cal(Day(now)) }

  function InMonthOf(now: int, cal: int -> (int, int)): Txn -> bool { t => SameMonth(t, now, cal) }

  function InCategory(c: string): Txn -> bool { (t: Txn) => t.category == c }

  /** A current-month expense of category c: the transactions whose amounts make up c's slice. */
  function MonthExpenseIn(now: int, cal: int -> (int, int), c: string): Txn -> bool
  {
    (t: Txn) => SameMonth(t, now, cal) && IsExpense(t) && t.category == c
  }

  /** currentMonthTransactions, then its 'expense' filter. */
  function MonthExpenses(ts: seq<Txn>, now: int, cal: int -> (int, int)): seq<Txn>
  {
    Filter(Filter(ts, InMonthOf(now, cal)), IsExpense)
  }

  /** The category of every transaction, in list order. */
  function Categories(s: seq<Txn>): (r: seq<string>)
    ensures |r| == |s|
    ensures forall i :: 0 <= i < |s| ==> r[i] == s[i].category
  {
    if s == [] then [] else Categories(s[..|s| - 1]) + [s[|s| - 1].category]
  }

  /** The category keys the forEach creates: each category once, in order of first occurrence. */
  function CategoryKeys(es: seq<Txn>): seq<string> { Dedup(Categories(es)) }

  /** The sum of the amounts of category c. */
  function CategorySum(es: seq<Txn>, c: string): real
  {
    if es == [] then 0.0
    else CategorySum(es[..|es| - 1], c) + (if es[|es| - 1].category == c then es[|es| - 1].amount else 0.0)
  }

  /** The running sum of category c is the total of the transactions of category c. */
  lemma {:induction false} CategorySumIsTotal(es: seq<Txn>, c: string)
    ensures CategorySum(es, c) == Total(Filter(es, InCategory(c)))
  {
    if es != [] {
      var n := |es| - 1;
      CategorySumIsTotal(es[..n], c);
      assert es == es[..n] + [es[n]];
      FilteredTotalSnoc(es[..n], es[n], InCategory(c));
    }
  }

  lemma CategoriesSnoc(s: seq<Txn>, t: Txn)
    ensures Categories(s + [t]) == Categories(s) + [t.category]
  {
    assert (s + [t])[..|s|] == s;
  }

  /** A category nobody used sums to 0. */
  lemma {:induction false} CategorySumUnused(s: seq<Txn>, c: string)
    requires c !in Categories(s)
    ensures CategorySum(s, c) == 0.0
  {
    if s != [] {
      var n := |s| - 1;
      assert Categories(s) == Categories(s[..n]) + [s[n].category];
      CategorySumUnused(s[..n], c);
    }
  }

  /** A new category goes to the end of the key order; a known one leaves it unchanged. */
  lemma CategoryKeysSnoc(s: seq<Txn>, t: Txn)
    ensures CategoryKeys(s + [t])
         == if t.category in CategoryKeys(s) then CategoryKeys(s) else CategoryKeys(s) + [t.category]
  {
    var cats := Categories(s);
    CategoriesSnoc(s, t);
    assert (cats + [t.category])[..|cats|] == cats;
  }

  /** The amount is added to its own category's sum and to no other. */
  lemma CategorySumSnoc(s: seq<Txn>, t: Txn, c: string)
    ensures CategorySum(s + [t], c) == CategorySum(s, c) + (if t.category == c then t.amount else 0.0)
  {
    assert (s + [t])[..|s|] == s;
  }

  /** One forEach step: `if (!obj[category]) obj[category] = 0; obj[category] += amount`. */
  function AddExpense(d: Dict<string, real>, t: Txn): Dict<string, real>
  {
    var c := t.category;
    var d1 := if c !in d.values || d.values[c] == 0.0 then Put(d, c, 0.0) else d;
    Put(d1, c, d1.values[c] + t.amount)
  }

  /** The dictionary after the forEach has visited every transaction of es, in order. */
  function Accumulated(es: seq<Txn>): Dict<string, real>
  {
    if es == [] then Dict([], map[]) else AddExpense(Accumulated(es[..|es| - 1]), es[|es| - 1])
  }

  /** The keys: one per category, in order of first occurrence. */
  lemma {:induction false} AccumulatedKeys(es: seq<Txn>)
    ensures Accumulated(es).keys == CategoryKeys(es)
  {
    if es != [] {
      var n := |es| - 1;
      var s, t := es[..n], es[n];
      assert es == s + [t];
      AccumulatedKeys(s);
      AccumulatedWellFormed(s);
      AddExpenseKeys(Accumulated(s), t);
      CategoryKeysSnoc(s, t);
    }
  }

  /** The object stays well formed and has a key for exactly the categories met so far. */
  lemma {:induction false} AccumulatedWellFormed(es: seq<Txn>)
    ensures WellFormed(Accumulated(es))
    ensures forall c :: c in Accumulated(es).values <==> c in Categories(es)
  {
    if es != [] {
      var n := |es| - 1;
      var s, t := es[..n], es[n];
      assert es == s + [t];
      AccumulatedWellFormed(s);
      CategoriesSnoc(s, t);
      AddExpenseWellFormed(Accumulated(s), t);
    }
  }

  /** A step appends the category to the key order when it is new, and otherwise keeps the order. */
  lemma AddExpenseKeys(d: Dict<string, real>, t: Txn)
    ensures AddExpense(d, t).keys == if t.category in d.values then d.keys else d.keys + [t.category]
  {
  }

  /** One step keeps the object well formed, sets the key of t's category and touches no other key. */
  lemma AddExpenseWellFormed(d: Dict<string, real>, t: Txn)
    requires WellFormed(d)
    ensures WellFormed(AddExpense(d, t))
    ensures forall c :: c in AddExpense(d, t).values <==> c in d.values || c == t.category
    ensures forall c :: c in d.values && c != t.category ==> AddExpense(d, t).values[c] == d.values[c]
    ensures AddExpense(d, t).values[t.category]
         == (if t.category in d.values then d.values[t.category] else 0.0) + t.amount
  {
    var c := t.category;
    var d1 := if c !in d.values || d.values[c] == 0.0 then Put(d, c, 0.0) else d;
    if c !in d.values || d.values[c] == 0.0 {
      PutWellFormed(d, c, 0.0);
    }
    PutWellFormed(d1, c, d1.values[c] + t.amount);
  }

  /** One forEach step keeps every key's value equal to its category's sum. */
  lemma SumsStep(d: Dict<string, real>, done: seq<Txn>, t: Txn)
    requires WellFormed(d)
    requires forall c :: c in Categories(done) ==> c in d.values
    requires forall c :: c in d.values ==> d.values[c] == CategorySum(done, c)
    ensures forall c :: c in AddExpense(d, t).values ==> AddExpense(d, t).values[c] == CategorySum(done + [t], c)
  {
    var r := AddExpense(d, t);
    AddExpenseWellFormed(d, t);
    forall c | c in r.values ensures r.values[c] == CategorySum(done + [t], c) {
      CategorySumSnoc(done, t, c);
      if c == t.category && c !in d.values {
        CategorySumUnused(done, c);
      }
    }
  }

  /** The values: each key holds the sum of its category's amounts. */
  lemma {:induction false} AccumulatedSums(es: seq<Txn>)
    ensures forall c :: c in Accumulated(es).values ==> Accumulated(es).values[c] == CategorySum(es, c)
  {
    if es != [] {
      var n := |es| - 1;
      var s, t := es[..n], es[n];
      assert es == s + [t];
      AccumulatedSums(s);
      AccumulatedWellFormed(s);
      SumsStep(Accumulated(s), s, t);
    }
  }

  /**
   * The forEach over the expenses: a key holding 0 is falsy and is set to 0
   * again, which changes nothing, so the result has one key per category in
   * order of first occurrence, holding that category's sum.
   */
  method ExpensesByCategory(es: seq<Txn>) returns (byCategory: Dict<string, real>)
    ensures WellFormed(byCategory)
    ensures byCategory.keys == CategoryKeys(es)
    ensures forall c :: c in byCategory.values ==> byCategory.values[c] == CategorySum(es, c)
  {
    byCategory := Dict([], map[]);
    var i := 0;
    while i < |es|
      invariant 0 <= i <= |es|
      invariant byCategory == Accumulated(es[..i])
    {
      var t := es[i];
      ghost var prev := byCategory;
      if t.category !in byCategory.values || byCategory.values[t.category] == 0.0 {
        byCategory := Put(byCategory, t.category, 0.0);
      }
      byCategory := Put(byCategory, t.category, byCategory.values[t.category] + t.amount);
      assert byCategory == AddExpense(prev, t);
      assert es[..i + 1][..i] == es[..i];
      i := i + 1;
    }
    assert es[..|es|] == es;
    AccumulatedWellFormed(es);
    AccumulatedKeys(es);
    AccumulatedSums(es);
  }

  /** String.prototype.toUpperCase on one character, for the ASCII letters. */
  function UpperAscii(ch: char): char
  {
    if 'a' <= ch <= 'z' then (ch as int - 32) as char else ch
  }

  /** `cat.charAt(0).toUpperCase() + cat.slice(1)`; the empty string stays empty. */
  function Capitalize(s: string): (r: string)
    ensures |r| == |s|
    ensures |s| > 0 ==> r[0] == UpperAscii(s[0]) && r[1..] == s[1..]
  {
    if s == [] then "" else [UpperAscii(s[0])] + s[1..]
  }

  /** The twelve slice colours, used in order. */
  const Palette: seq<string> := [
    "rgba(255, 99, 132, 0.7)", "rgba(54, 162, 235, 0.7)", "rgba(255, 206, 86, 0.7)",
    "rgba(75, 192, 192, 0.7)", "rgba(153, 102, 255, 0.7)", "rgba(255, 159, 64, 0.7)",
    "rgba(199, 199, 199, 0.7)", "rgba(83, 102, 255, 0.7)", "rgba(40, 159, 64, 0.7)",
    "rgba(210, 199, 199, 0.7)", "rgba(78, 52, 199, 0.7)", "rgba(130, 210, 64, 0.7)"
  ]

  function Min(a: int, b: int): int { if a <= b then a else b }

  /** The pie's labels, data values and background colours. */
  datatype PieData = PieData(labels: seq<string>, data: seq<real>, colors: seq<string>)

  /** Object.keys mapped through Capitalize, Object.values, and the palette sliced to the key count. */
  function ChartOf(d: Dict<string, real>): PieData
    requires WellFormed(d)
  {
    PieData(
      seq(|d.keys|, i requires 0 <= i < |d.keys| => Capitalize(d.keys[i])),
      seq(|d.keys|, i requires 0 <= i < |d.keys| => d.values[d.keys[i]]),
      Palette[..Min(|d.keys|, 12)])
  }

  /**
   * The chart data for a list of expenses: one slice per category, labelled
   * with the capitalised category and sized by the category's sum.
   */
  function PieOf(es: seq<Txn>): PieData
  {
    var keys := CategoryKeys(es);
    PieData(
      seq(|keys|, i requires 0 <= i < |keys| => Capitalize(keys[i])),
      seq(|keys|, i requires 0 <= i < |keys| => CategorySum(es, keys[i])),
      Palette[..Min(|keys|, 12)])
  }

  /** The chart data the effect computes from the transactions it is given. */
  function MonthlyData(ts: seq<Txn>, now: int, cal: int -> (int, int)): PieData { PieOf(MonthExpenses(ts, now, cal)) }

  /** The effect: both filters, the dictionary loop, then the chart data. */
  method BuildMonthly(ts: seq<Txn>, now: int, cal: int -> (int, int)) returns (chart: PieData)
    ensures chart == MonthlyData(ts, now, cal)
  {
    var current := Filter(ts, InMonthOf(now, cal));
    var expenses := Filter(current, IsExpense);
    var byCategory := ExpensesByCategory(expenses);
    chart := ChartOf(byCategory);
  }

  /** What the component renders: a spinner before the data exists, a message when it is empty, else the pie. */
  datatype View = Spinner | NoData(message: string) | Pie(data: PieData)

  const NoDataMessage: string := "No expense data for the current month"

  function Render(chartData: Option<PieData>): View
  {
    match chartData
    case None => Spinner
    case Some(c) => if |c.labels| == 0 then NoData(NoDataMessage) else Pie(c)
  }

  /** c's current-month expenses, picked straight out of the whole list. */
  lemma CategoryExpenses(ts: seq<Txn>, now: int, cal: int -> (int, int), c: string)
    ensures Filter(MonthExpenses(ts, now, cal), InCategory(c)) == Filter(ts, MonthExpenseIn(now, cal, c))
  {
    var both := (t: Txn) => SameMonth(t, now, cal) && IsExpense(t);
    FilterFilter(ts, InMonthOf(now, cal), IsExpense, both);
    FilterFilter(ts, both, InCategory(c), MonthExpenseIn(now, cal, c));
  }

  /** The month's expenses are exactly the transactions of the list that are expenses dated this month. */
  lemma MonthExpensesMember(ts: seq<Txn>, now: int, cal: int -> (int, int), t: Txn)
    ensures t in MonthExpenses(ts, now, cal) <==> t in ts && SameMonth(t, now, cal) && IsExpense(t)
  {
    if t in ts && SameMonth(t, now, cal) && IsExpense(t) {
      FilterKeeps(ts, InMonthOf(now, cal), t);
      FilterKeeps(Filter(ts, InMonthOf(now, cal)), IsExpense, t);
    }
  }

  /** A category is a key exactly when some transaction of the list has it. */
  lemma CategoryKeysMember(es: seq<Txn>, c: string)
    ensures c in CategoryKeys(es) <==> exists t :: t in es && t.category == c
  {
    if c in CategoryKeys(es) {
      var i :| 0 <= i < |es| && Categories(es)[i] == c;
      assert es[i] in es;
    }
    if t :| t in es && t.category == c {
      var i :| 0 <= i < |es| && es[i] == t;
      assert Categories(es)[i] == c;
    }
  }

  /**
   * The pie of a list of expenses: labels, values and colours line up, label
   * i is key i capitalised, value i is the total of key i's transactions,
   * and the palette is cut to min(#keys, 12) colours.
   */
  lemma PieShape(es: seq<Txn>)
    ensures var keys, pie := CategoryKeys(es), PieOf(es);
      && |pie.labels| == |pie.data| == |keys|
      && |pie.colors| == Min(|keys|, 12)
      && pie.colors == Palette[..|pie.colors|]
      && Distinct(keys)
      && (forall i :: 0 <= i < |keys| ==>
            pie.labels[i] == Capitalize(keys[i]) &&
            pie.data[i] == Total(Filter(es, InCategory(keys[i]))))
  {
    var keys := CategoryKeys(es);
    forall i | 0 <= i < |keys| ensures PieOf(es).data[i] == Total(Filter(es, InCategory(keys[i]))) {
      CategorySumIsTotal(es, keys[i]);
    }
  }

  /**
   * The chart: labels, values and colours line up; label i is category i
   * capitalised; value i is the sum of the current month's expenses of that
   * category over the whole list; there are min(#categories, 12) colours.
   */
  lemma MonthlyShape(ts: seq<Txn>, now: int, cal: int -> (int, int))
    ensures var keys, chart := CategoryKeys(MonthExpenses(ts, now, cal)), MonthlyData(ts, now, cal);
      && |chart.labels| == |chart.data| == |keys|
      && |chart.colors| == Min(|keys|, 12)
      && chart.colors == Palette[..|chart.colors|]
      && Distinct(keys)
      && (forall i :: 0 <= i < |keys| ==>
            chart.labels[i] == Capitalize(keys[i]) &&
            chart.data[i] == Total(Filter(ts, MonthExpenseIn(now, cal, keys[i]))))
  {
    var es := MonthExpenses(ts, now, cal);
    PieShape(es);
    var keys := CategoryKeys(es);
    forall i | 0 <= i < |keys| ensures Filter(es, InCategory(keys[i])) == Filter(ts, MonthExpenseIn(now, cal, keys[i])) {
      CategoryExpenses(ts, now, cal, keys[i]);
    }
  }

  /** A category has a slice exactly when some expense dated this month uses it. */
  lemma MonthlyCategories(ts: seq<Txn>, now: int, cal: int -> (int, int), c: string)
    ensures c in CategoryKeys(MonthExpenses(ts, now, cal))
        <==> exists t :: t in ts && SameMonth(t, now, cal) && IsExpense(t) && t.category == c
  {
    var es := MonthExpenses(ts, now, cal);
    CategoryKeysMember(es, c);
    if t :| t in es && t.category == c {
      MonthExpensesMember(ts, now, cal, t);
    }
    if t :| t in ts && SameMonth(t, now, cal) && IsExpense(t) && t.category == c {
      MonthExpensesMember(ts, now, cal, t);
    }
  }

  /** Slices follow the order in which their categories first occur among the month's expenses. */
  lemma MonthlyOrder(ts: seq<Txn>, now: int, cal: int -> (int, int))
    ensures var cats := Categories(MonthExpenses(ts, now, cal));
      var keys := CategoryKeys(MonthExpenses(ts, now, cal));
      forall i, j :: 0 <= i < j < |keys| ==> FirstIndex(cats, keys[i]) < FirstIndex(cats, keys[j])
  {
    DedupOrder(Categories(MonthExpenses(ts, now, cal)));
  }

  /** Income, other types and other months never reach the expense list. */
  lemma MonthExpensesIgnore(ts: seq<Txn>, t: Txn, now: int, cal: int -> (int, int))
    requires !(SameMonth(t, now, cal) && IsExpense(t))
    ensures MonthExpenses(ts + [t], now, cal) == MonthExpenses(ts, now, cal)
  {
    var cur := Filter(ts, InMonthOf(now, cal));
    FilterSnoc(ts, t, InMonthOf(now, cal));
    if SameMonth(t, now, cal) {
      assert Filter(ts + [t], InMonthOf(now, cal)) == cur + [t];
      FilterSnoc(cur, t, IsExpense);
    } else {
      assert Filter(ts + [t], InMonthOf(now, cal)) == cur;
    }
  }

  /** Income, other types and other months never create or change a slice. */
  lemma MonthlyIgnores(ts: seq<Txn>, t: Txn, now: int, cal: int -> (int, int))
    requires !(SameMonth(t, now, cal) && IsExpense(t))
    ensures MonthlyData(ts + [t], now, cal) == MonthlyData(ts, now, cal)
  {
    MonthExpensesIgnore(ts, t, now, cal);
  }

  /** The message appears exactly when the list holds no expense dated this month. */
  lemma MonthlyEmptyMessage(ts: seq<Txn>, now: int, cal: int -> (int, int))
    ensures Render(Some(MonthlyData(ts, now, cal))) == NoData(NoDataMessage)
        <==> forall t :: t in ts ==> !(SameMonth(t, now, cal) && IsExpense(t))
  {
    var keys := CategoryKeys(MonthExpenses(ts, now, cal));
    PieShape(MonthExpenses(ts, now, cal));
    if t :| t in ts && SameMonth(t, now, cal) && IsExpense(t) {
      MonthlyCategories(ts, now, cal, t.category);
      assert t.category in keys;
    }
    if |keys| > 0 {
      MonthlyCategories(ts, now, cal, keys[0]);
    }
  }

  /** The sum of a list of positive amounts is positive. */
  lemma {:induction false} TotalPositive(s: seq<Txn>)
    requires s != [] && forall t :: t in s ==> t.amount > 0.0
    ensures Total(s) > 0.0
  {
    var n := |s| - 1;
    if n > 0 {
      TotalPositive(s[..n]);
    }
    assert s == s[..n] + [s[n]];
    TotalAppend(s[..n], [s[n]]);
  }

  /** When every amount is positive (the form enforces it, the API does not), no slice is zero. */
  lemma MonthlyPositive(ts: seq<Txn>, now: int, cal: int -> (int, int))
    requires forall t :: t in ts ==> t.amount > 0.0
    ensures forall v :: v in MonthlyData(ts, now, cal).data ==> v > 0.0
  {
    var es := MonthExpenses(ts, now, cal);
    var keys := CategoryKeys(es);
    PieShape(es);
    forall i | 0 <= i < |keys| ensures Total(Filter(es, InCategory(keys[i]))) > 0.0 {
      CategoryKeysMember(es, keys[i]);
      var t :| t in es && t.category == keys[i];
      FilterKeeps(es, InCategory(keys[i]), t);
      TotalPositive(Filter(es, InCategory(keys[i])));
    }
  }

  /** The slices do not depend on the order of the list, only the key order does. */
  lemma MonthlyValuesOrderIndependent(a: seq<Txn>, b: seq<Txn>, now: int, cal: int -> (int, int), c: string)
    requires multiset(a) == multiset(b)
    ensures Total(Filter(a, MonthExpenseIn(now, cal, c))) == Total(Filter(b, MonthExpenseIn(now, cal, c)))
  {
    FilteredTotalPermutation(a, b, MonthExpenseIn(now, cal, c));
  }
}
