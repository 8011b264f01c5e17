/** The totals of the Clients screen: the all-time per-client sums computed
    while grouping, the year filter, the `calculateJobTotals` fold over jobs
    for a selected period, and the totals of the selected client. */
module JobTotals {
  import opened Records
  import opened Seqs

  /** The instant lies between the first and the last instant of year `y`,
      both included. */
  predicate InYear(cal: Calendar, y: int, tx: Tx)
  {
    cal.yearStart(y) <= tx.date <= cal.yearEnd(y)
  }

  function InYearOf(cal: Calendar, y: int): Tx -> bool
  {
    tx => InYear(cal, y, tx)
  }

  /** The transactions of a job that the selected period keeps: all of them
      for 'All Time', otherwise those dated inside the year, in their
      original order. */
  function YearTransactions(cal: Calendar, job: Job, period: Period): (r: seq<Tx>)
    ensures period.AllTime? ==> r == TxsOf(job)
    ensures period.Year? ==> forall tx :: tx in r <==> tx in TxsOf(job) && InYear(cal, period.year, tx)
    ensures IsSubseq(r, TxsOf(job))
  {
    match period
    case AllTime =>
      IsSubseqRefl(TxsOf(job));
      TxsOf(job)
    case Year(y) => Filter(TxsOf(job), InYearOf(cal, y))
  }

  /** A year keeps each transaction dated inside it as often as the job lists
      it, and no other transaction. */
  lemma {:induction false} YearTransactionsCount(cal: Calendar, job: Job, y: int)
    ensures forall tx :: multiset(YearTransactions(cal, job, Year(y)))[tx] ==
                         if InYear(cal, y, tx) then multiset(TxsOf(job))[tx] else 0
  {
    FilterMultiset(TxsOf(job), InYearOf(cal, y));
  }

  /** Sum of the amounts of the transactions whose type is exactly "income". */
  function IncomeSum(txs: seq<Tx>): int
  {
    SumBy(Filter(txs, IsIncome), AmountOf)
  }

  /** Sum of the amounts of the transactions whose type is exactly "expense". */
  function ExpenseSum(txs: seq<Tx>): int
  {
    SumBy(Filter(txs, IsExpense), AmountOf)
  }

  /** Income of one job over all its transactions, as the grouping pass sums it. */
  function JobIncome(job: Job): int
  {
    IncomeSum(TxsOf(job))
  }

  function JobExpenses(job: Job): int
  {
    ExpenseSum(TxsOf(job))
  }

  /** `client.jobs.reduce((total, job) => total + ..., 0)` for income. */
  function ClientIncome(jobs: seq<Job>): int
  {
    SumBy(jobs, JobIncome)
  }

  function ClientExpenses(jobs: seq<Job>): int
  {
    SumBy(jobs, JobExpenses)
  }

  /** What one job adds to the accumulator of `calculateJobTotals`: the
      income and the expenses of its transactions in the period. */
  function PeriodIncomeOf(cal: Calendar, period: Period): Job -> int
  {
    job => IncomeSum(YearTransactions(cal, job, period))
  }

  function PeriodExpensesOf(cal: Calendar, period: Period): Job -> int
  {
    job => ExpenseSum(YearTransactions(cal, job, period))
  }

  /** The result of `calculateJobTotals`: the period income and expenses
      summed over the jobs. */
  function PeriodTotals(cal: Calendar, jobs: seq<Job>, period: Period): Totals
  {
    Totals(SumBy(jobs, PeriodIncomeOf(cal, period)), SumBy(jobs, PeriodExpensesOf(cal, period)))
  }

  function JobsOrEmpty(jobs: Option<seq<Job>>): seq<Job>
  {
    match jobs
    case Some(js) => js
    case None => []
  }

  /** `calculateJobTotals(jobs, year)`: a reduce whose callback adds each job's
      period income and expenses into the accumulator in place. */
  method CalculateJobTotals(cal: Calendar, jobs: Option<seq<Job>>, period: Period) returns (totals: Totals)
    ensures totals == PeriodTotals(cal, JobsOrEmpty(jobs), period)
    ensures jobs.None? || jobs == Some([]) ==> totals == Totals(0, 0)
  {
    var list := JobsOrEmpty(jobs);
    totals := Totals(0, 0);
    for n := 0 to |list|
      invariant totals == PeriodTotals(cal, list[..n], period)
    {
      var yearTransactions := YearTransactions(cal, list[n], period);
      totals := totals.(income := totals.income + IncomeSum(yearTransactions));
      totals := totals.(expenses := totals.expenses + ExpenseSum(yearTransactions));
      PeriodTotalsStep(cal, list, n, period);
    }
    assert list[..|list|] == list;
  }

  /** One more job adds its period income and expenses to the totals. */
  lemma {:induction false} PeriodTotalsStep(cal: Calendar, jobs: seq<Job>, n: nat, period: Period)
    requires n < |jobs|
    ensures PeriodTotals(cal, jobs[..n + 1], period) ==
            AddTotals(PeriodTotals(cal, jobs[..n], period),
                      Totals(IncomeSum(YearTransactions(cal, jobs[n], period)),
                             ExpenseSum(YearTransactions(cal, jobs[n], period))))
  {
    assert jobs[..n + 1] == jobs[..n] + [jobs[n]];
    SumBySnoc(jobs[..n], jobs[n], PeriodIncomeOf(cal, period));
    SumBySnoc(jobs[..n], jobs[n], PeriodExpensesOf(cal, period));
  }

  /** Totals over a concatenation of job lists add up: the fold distributes
      over the jobs taken one at a time. */
  lemma {:induction false} PeriodTotalsConcat(cal: Calendar, a: seq<Job>, b: seq<Job>, period: Period)
    ensures PeriodTotals(cal, a + b, period) == AddTotals(PeriodTotals(cal, a, period), PeriodTotals(cal, b, period))
  {
    var pi, pe := PeriodIncomeOf(cal, period), PeriodExpensesOf(cal, period);
    calc {
      AddTotals(PeriodTotals(cal, a, period), PeriodTotals(cal, b, period));
      Totals(SumBy(a, pi) + SumBy(b, pi), SumBy(a, pe) + SumBy(b, pe));
      { SumByConcat(a, b, pi); SumByConcat(a, b, pe); }
      Totals(SumBy(a + b, pi), SumBy(a + b, pe));
      PeriodTotals(cal, a + b, period);
    }
  }

  /** For 'All Time' the fold of `calculateJobTotals` agrees with the totals
      the grouping pass stores on each client. */
  lemma {:induction false} AllTimeAgreesWithClientTotals(cal: Calendar, jobs: seq<Job>)
    ensures PeriodTotals(cal, jobs, AllTime) == Totals(ClientIncome(jobs), ClientExpenses(jobs))
  {
    SumByPointwise(jobs, PeriodIncomeOf(cal, AllTime), JobIncome);
    SumByPointwise(jobs, PeriodExpensesOf(cal, AllTime), JobExpenses);
  }

  predicate NonNegativeAmounts(jobs: seq<Job>)
  {
    forall job, tx :: job in jobs && tx in TxsOf(job) ==> AmountOf(tx) >= 0
  }

  /** One year's income never exceeds the whole history's income (and the
      same for expenses) when no amount is negative. */
  lemma {:induction false} IncomeSumOfYearBounded(cal: Calendar, txs: seq<Tx>, y: int)
    requires forall tx :: tx in txs ==> AmountOf(tx) >= 0
    ensures IncomeSum(Filter(txs, InYearOf(cal, y))) <= IncomeSum(txs)
    ensures ExpenseSum(Filter(txs, InYearOf(cal, y))) <= ExpenseSum(txs)
  {
    FilterCommute(txs, InYearOf(cal, y), IsIncome);
    SumBySubseq(Filter(Filter(txs, IsIncome), InYearOf(cal, y)), Filter(txs, IsIncome), AmountOf);
    FilterCommute(txs, InYearOf(cal, y), IsExpense);
    SumBySubseq(Filter(Filter(txs, IsExpense), InYearOf(cal, y)), Filter(txs, IsExpense), AmountOf);
  }

  lemma {:induction false} YearTotalsWithinAllTime(cal: Calendar, jobs: seq<Job>, y: int)
    requires NonNegativeAmounts(jobs)
    ensures PeriodTotals(cal, jobs, Year(y)).income <= PeriodTotals(cal, jobs, AllTime).income
    ensures PeriodTotals(cal, jobs, Year(y)).expenses <= PeriodTotals(cal, jobs, AllTime).expenses
  {
    forall job | job in jobs
      ensures PeriodIncomeOf(cal, Year(y))(job) <= PeriodIncomeOf(cal, AllTime)(job)
      ensures PeriodExpensesOf(cal, Year(y))(job) <= PeriodExpensesOf(cal, AllTime)(job)
    {
      IncomeSumOfYearBounded(cal, TxsOf(job), y);
    }
    SumByMonotone(jobs, PeriodIncomeOf(cal, Year(y)), PeriodIncomeOf(cal, AllTime));
    SumByMonotone(jobs, PeriodExpensesOf(cal, Year(y)), PeriodExpensesOf(cal, AllTime));
  }

  /** With a negative amount the bound fails: one job with an income of 10
      inside year `y` and an income of -20 after it earns 10 in the year but
      -10 over all time. */
  lemma NegativeAmountBreaksYearBound(cal: Calendar, y: int)
    requires cal.yearStart(y) <= 0 <= cal.yearEnd(y) < 1
    ensures var job := Job(None, "Job", Some([Tx(0, INCOME, Some(10)), Tx(1, INCOME, Some(-20))]));
            PeriodTotals(cal, [job], Year(y)).income == 10 &&
            PeriodTotals(cal, [job], AllTime).income == -10
  {
    var inside, after := Tx(0, INCOME, Some(10)), Tx(1, INCOME, Some(-20));
    var job := Job(None, "Job", Some([inside, after]));
    SignedIncomes(cal, y, inside, after);
    assert YearTransactions(cal, job, Year(y)) == [inside];
    assert YearTransactions(cal, job, AllTime) == [inside, after];
    assert [] + [job] == [job];
    SumBySnoc([], job, PeriodIncomeOf(cal, Year(y)));
    SumBySnoc([], job, PeriodIncomeOf(cal, AllTime));
  }

  lemma SignedIncomes(cal: Calendar, y: int, inside: Tx, after: Tx)
    requires inside == Tx(0, INCOME, Some(10)) && after == Tx(1, INCOME, Some(-20))
    requires cal.yearStart(y) <= 0 <= cal.yearEnd(y) < 1
    ensures Filter([inside, after], InYearOf(cal, y)) == [inside]
    ensures IncomeSum([inside]) == 10
    ensures IncomeSum([inside, after]) == -10
  {
    assert [inside, after][1..] == [after];
    assert [inside][1..] == [];
    assert Filter([after], IsIncome) == [after];
    assert Filter([inside, after], IsIncome) == [inside, after];
    assert SumBy([after], AmountOf) == -20;
  }

  /** The modal's totals: income, expenses and revenue of the selected client
      for the selected period. */
  datatype Summary = Summary(income: int, expenses: int, revenue: int)

  /** `clientTotals`: all zero without a selected client, otherwise the
      `calculateJobTotals` of its jobs for the selected period, with
      revenue = income - expenses; for 'All Time' these are the totals the
      grouping pass stored. */
  function ClientTotals(cal: Calendar, selected: Option<Client>, period: Period): (r: Summary)
    ensures selected.None? ==> r == Summary(0, 0, 0)
    ensures r.revenue == r.income - r.expenses
    ensures selected.Some? ==>
      r.income == PeriodTotals(cal, selected.value.jobs, period).income &&
      r.expenses == PeriodTotals(cal, selected.value.jobs, period).expenses
    ensures selected.Some? && period.AllTime? ==>
      r.income == ClientIncome(selected.value.jobs) && r.expenses == ClientExpenses(selected.value.jobs)
  {
    match selected
    case None => Summary(0, 0, 0)
    case Some(c) =>
      var totals := PeriodTotals(cal, c.jobs, period);
      AllTimeAgreesWithClientTotals(cal, c.jobs);
      Summary(totals.income, totals.expenses, totals.income - totals.expenses)
  }
}
