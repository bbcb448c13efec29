/**
 * The dashboard's three summary cards: total income, total expenses and
 * balance, computed from every transaction of the signed-in user.
 */
module DashboardStats {
  import opened Common
  import opened Ledger

  datatype Stats = Stats(totalIncome: real, totalExpenses: real, balance: real)

  const InitialStats: Stats := Stats(0.0, 0.0, 0.0)

  const LoadError: string := "Failed to load transaction data"

  /** The income and expense filter/reduce passes and their difference. */
  function ComputeStats(ts: seq<Txn>): Stats
  {
    var income := Total(Filter(ts, IsIncome));
    var expenses := Total(Filter(ts, IsExpense));
    Stats(income, expenses, income - expenses)
  }

  /** No transactions: the same all-zero stats the component starts with. */
  lemma StatsOfEmpty()
    ensures ComputeStats([]) == InitialStats
  {
  }

  /** Totals are additive over concatenation, and the balance stays income minus expenses. */
  lemma StatsAppend(a: seq<Txn>, b: seq<Txn>)
    ensures ComputeStats(a + b).totalIncome == ComputeStats(a).totalIncome + ComputeStats(b).totalIncome
    ensures ComputeStats(a + b).totalExpenses == ComputeStats(a).totalExpenses + ComputeStats(b).totalExpenses
    ensures ComputeStats(a + b).balance == ComputeStats(a).balance + ComputeStats(b).balance
  {
    FilterAppend(a, b, IsIncome);
    FilterAppend(a, b, IsExpense);
    TotalAppend(Filter(a, IsIncome), Filter(b, IsIncome));
    TotalAppend(Filter(a, IsExpense), Filter(b, IsExpense));
  }

  /**
   * One more transaction moves income when its type is "income", expenses
   * when it is "expense", and nothing when it is any other string.
   */
  lemma StatsSnoc(ts: seq<Txn>, t: Txn)
    ensures ComputeStats(ts + [t]).totalIncome ==
      ComputeStats(ts).totalIncome + (if IsIncome(t) then t.amount else 0.0)
    ensures ComputeStats(ts + [t]).totalExpenses ==
      ComputeStats(ts).totalExpenses + (if IsExpense(t) then t.amount else 0.0)
    ensures ComputeStats(ts + [t]).balance ==
      ComputeStats(ts).balance + (if IsIncome(t) then t.amount else if IsExpense(t) then -t.amount else 0.0)
  {
    FilteredTotalSnoc(ts, t, IsIncome);
    FilteredTotalSnoc(ts, t, IsExpense);
    if IsIncome(t) {
      assert !IsExpense(t) by { assert t.kind[0] == 'i'; }
    }
  }

  /** The stats do not depend on the order in which the API lists the transactions. */
  lemma StatsOrderIndependent(a: seq<Txn>, b: seq<Txn>)
    requires multiset(a) == multiset(b)
    ensures ComputeStats(a) == ComputeStats(b)
  {
    FilteredTotalPermutation(a, b, IsIncome);
    FilteredTotalPermutation(a, b, IsExpense);
  }

  /** The component's state: the stats shown, the loading flag and the error text. */
  class StatsView {
    var stats: Stats
    var loading: bool
    var error: string

    constructor ()
      ensures stats == InitialStats && loading && error == ""
    {
      stats := InitialStats;
      loading := true;
      error := "";
    }

    /**
     * fetchTransactions: `fetched` is what transactionApi.getAll() resolved
     * to, or None when it threw. Loading always ends false; a failure keeps
     * the previous stats and shows the fixed error text.
     */
    method FetchTransactions(fetched: Option<seq<Txn>>)
      modifies this
      ensures !loading
      ensures fetched.Some? ==> stats == ComputeStats(fetched.value) && error == ""
      ensures fetched.None? ==> stats == old(stats) && error == LoadError
    {
      loading := true;
      error := "";
      match fetched {
        case Some(ts) =>
          var income := Total(Filter(ts, IsIncome));
          var expenses := Total(Filter(ts, IsExpense));
          stats := Stats(income, expenses, income - expenses);
        case None =>
          error := LoadError;
      }
      loading := false;
    }
  }
}
