/** The two columns of a job card: the period's income transactions and its
    expense transactions, each newest first. */
module TransactionColumns {
  import opened Records
  import opened Seqs
  import opened JobTotals

  /** Sort key for the comparator `new Date(b.date) - new Date(a.date)`:
      ascending in this key is newest first. */
  function NewestFirst(tx: Tx): int
  {
    -tx.date
  }

  /** The column order: a stable sort, newest first. */
  function NewestFirstOrder(txs: seq<Tx>): (r: seq<Tx>)
    ensures forall tx :: tx in r <==> tx in txs
    ensures multiset(r) == multiset(txs)
    ensures forall i, j :: 0 <= i < j < |r| ==> r[i].date >= r[j].date
  {
    var r := SortBy(txs, NewestFirst);
    assert forall tx :: tx in r <==> multiset(r)[tx] > 0;
    assert forall tx :: tx in txs <==> multiset(txs)[tx] > 0;
    assert forall i, j :: 0 <= i < j < |r| ==> NewestFirst(r[i]) <= NewestFirst(r[j]);
    r
  }

  /** `incomeTx`: the period's transactions of type exactly "income", newest
      first. */
  function IncomeColumn(cal: Calendar, job: Job, period: Period): (r: seq<Tx>)
    ensures forall tx :: tx in r <==> tx in YearTransactions(cal, job, period) && IsIncome(tx)
    ensures multiset(r) == multiset(Filter(YearTransactions(cal, job, period), IsIncome))
    ensures forall i, j :: 0 <= i < j < |r| ==> r[i].date >= r[j].date
  {
    NewestFirstOrder(Filter(YearTransactions(cal, job, period), IsIncome))
  }

  /** `expenseTx`: the period's transactions of type exactly "expense",
      newest first. */
  function ExpenseColumn(cal: Calendar, job: Job, period: Period): (r: seq<Tx>)
    ensures forall tx :: tx in r <==> tx in YearTransactions(cal, job, period) && IsExpense(tx)
    ensures multiset(r) == multiset(Filter(YearTransactions(cal, job, period), IsExpense))
    ensures forall i, j :: 0 <= i < j < |r| ==> r[i].date >= r[j].date
  {
    NewestFirstOrder(Filter(YearTransactions(cal, job, period), IsExpense))
  }

  /** No transaction appears in both columns, and one whose type is neither
      "income" nor "expense" appears in neither. */
  lemma {:induction false} ColumnsDisjoint(cal: Calendar, job: Job, period: Period, tx: Tx)
    ensures !(tx in IncomeColumn(cal, job, period) && tx in ExpenseColumn(cal, job, period))
    ensures tx.kind != INCOME && tx.kind != EXPENSE ==>
      tx !in IncomeColumn(cal, job, period) && tx !in ExpenseColumn(cal, job, period)
  {
  }

  /** Within each column, transactions of the same date keep the order the
      year filter left them in. */
  lemma {:induction false} ColumnsKeepTies(cal: Calendar, job: Job, period: Period, date: int)
    ensures WithKey(IncomeColumn(cal, job, period), NewestFirst, -date) ==
            WithKey(Filter(YearTransactions(cal, job, period), IsIncome), NewestFirst, -date)
    ensures WithKey(ExpenseColumn(cal, job, period), NewestFirst, -date) ==
            WithKey(Filter(YearTransactions(cal, job, period), IsExpense), NewestFirst, -date)
  {
    NewestFirstKeepsTies(Filter(YearTransactions(cal, job, period), IsIncome), date);
    NewestFirstKeepsTies(Filter(YearTransactions(cal, job, period), IsExpense), date);
  }

  lemma {:induction false} NewestFirstKeepsTies(txs: seq<Tx>, date: int)
    ensures WithKey(NewestFirstOrder(txs), NewestFirst, -date) == WithKey(txs, NewestFirst, -date)
  {
    SortByStable(txs, NewestFirst, -date);
  }
}
