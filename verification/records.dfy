/** The records the Clients screen works on: jobs as they arrive from the
    jobs feed, the transactions inside them, and the client summaries and
    totals derived from them. Amounts are integer cents; dates are integer
    timestamps whose calendar years are given by a `Calendar`. */
module Records {

  datatype Option<+T> = None | Some(value: T)

  /** A transaction. `kind` is the raw `type` string of the record; only the
      exact strings "income" and "expense" are recognised. A missing amount
      is `None`. */
  datatype Tx = Tx(date: int, kind: string, amount: Option<int>)

  /** A job. Missing `client` or missing `transactions` are `None`. */
  datatype Job = Job(client: Option<string>, name: string, transactions: Option<seq<Tx>>)

  /** A client bucket built by the grouping pass. */
  datatype Client = Client(name: string, jobs: seq<Job>, totalIncome: int, totalExpenses: int)

  /** An {income, expenses} accumulator. */
  datatype Totals = Totals(income: int, expenses: int)

  /** The selected period: the 'All Time' marker or one calendar year. */
  datatype Period = AllTime | Year(year: int)

  /** The local calendar: the first and last instant of a year, and the year
      an instant falls in. */
  datatype Calendar = Calendar(yearStart: int -> int, yearEnd: int -> int, yearOf: int -> int)

  const UNKNOWN_CLIENT: string := "Unknown Client"
  const INCOME: string := "income"
  const EXPENSE: string := "expense"

  /** `job.client || 'Unknown Client'`: an absent or empty client name falls
      back to the sentinel. */
  function ClientKey(job: Job): (k: string)
    ensures k != ""
    ensures job.client.Some? && job.client.value != "" ==> k == job.client.value
    ensures job.client.None? || job.client.value == "" ==> k == UNKNOWN_CLIENT
  {
    match job.client
    case Some(c) => if c != "" then c else UNKNOWN_CLIENT
    case None => UNKNOWN_CLIENT
  }

  /** `job.transactions || []`. */
  function TxsOf(job: Job): seq<Tx>
  {
    match job.transactions
    case Some(txs) => txs
    case None => []
  }

  /** `Number(tx.amount || 0)` for an integer amount. */
  function AmountOf(tx: Tx): int
  {
    match tx.amount
    case Some(a) => a
    case None => 0
  }

  predicate IsIncome(tx: Tx)
  {
    tx.kind == INCOME
  }

  predicate IsExpense(tx: Tx)
  {
    tx.kind == EXPENSE
  }

  function AddTotals(a: Totals, b: Totals): Totals
  {
    Totals(a.income + b.income, a.expenses + b.expenses)
  }

  /** Net revenue of a client: income minus expenses; the ranking key. */
  function Revenue(c: Client): int
  {
    c.totalIncome - c.totalExpenses
  }
}
