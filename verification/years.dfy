/** The year picker's catalog: 'All Time' followed by the current year and
    the calendar year of every transaction of every listed client, newest
    first, each year once. */
module YearCatalog {
  import opened Records
  import opened Seqs
  import opened ClientGrouping

  /** The years of `txs`. */
  function TxYears(cal: Calendar, txs: seq<Tx>): set<int>
    decreases |txs|
  {
    if |txs| == 0 then {}
    else TxYears(cal, txs[..|txs| - 1]) + {cal.yearOf(txs[|txs| - 1].date)}
  }

  /** The years of every transaction of `jobs`; a job without a
      transaction list contributes none. */
  function JobYears(cal: Calendar, jobs: seq<Job>): set<int>
    decreases |jobs|
  {
    if |jobs| == 0 then {}
    else JobYears(cal, jobs[..|jobs| - 1]) + TxYears(cal, TxsOf(jobs[|jobs| - 1]))
  }

  /** The years of every transaction of every job of `clients`. */
  function ClientYears(cal: Calendar, clients: seq<Client>): set<int>
    decreases |clients|
  {
    if |clients| == 0 then {}
    else ClientYears(cal, clients[..|clients| - 1]) + JobYears(cal, clients[|clients| - 1].jobs)
  }

  lemma {:induction false} TxYearsMembers(cal: Calendar, txs: seq<Tx>)
    ensures forall y :: y in TxYears(cal, txs) <==> exists tx :: tx in txs && cal.yearOf(tx.date) == y
    decreases |txs|
  {
    if |txs| > 0 {
      var p, t := txs[..|txs| - 1], txs[|txs| - 1];
      assert txs == p + [t];
      TxYearsMembers(cal, p);
    }
  }

  lemma {:induction false} JobYearsMembers(cal: Calendar, jobs: seq<Job>)
    ensures forall y :: y in JobYears(cal, jobs) <==>
              exists job, tx :: job in jobs && tx in TxsOf(job) && cal.yearOf(tx.date) == y
    decreases |jobs|
  {
    if |jobs| > 0 {
      var p, j := jobs[..|jobs| - 1], jobs[|jobs| - 1];
      assert jobs == p + [j];
      JobYearsMembers(cal, p);
      TxYearsMembers(cal, TxsOf(j));
    }
  }

  /** `ClientYears` holds exactly the years some transaction of some job of
      some client falls in. */
  lemma {:induction false} ClientYearsMembers(cal: Calendar, clients: seq<Client>)
    ensures forall y :: y in ClientYears(cal, clients) <==>
              exists c, job, tx :: c in clients && job in c.jobs && tx in TxsOf(job) && cal.yearOf(tx.date) == y
    decreases |clients|
  {
    if |clients| > 0 {
      var p, c := clients[..|clients| - 1], clients[|clients| - 1];
      assert clients == p + [c];
      ClientYearsMembers(cal, p);
      JobYearsMembers(cal, c.jobs);
    }
  }

  /** `(a, b) => b - a`: ascending by the negated year, i.e. newest first. */
  function NewestYearFirst(y: int): int
  {
    -y
  }

  /** The picker entries for `ys`, in order. */
  function AsYears(ys: seq<int>): (r: seq<Period>)
    ensures |r| == |ys|
    ensures forall i :: 0 <= i < |ys| ==> r[i] == Year(ys[i])
  {
    seq(|ys|, i requires 0 <= i < |ys| => Year(ys[i]))
  }

  /** `txs.forEach(tx => years.add(yearOf(tx.date)))` on a set listed in
      insertion order: new years are appended, known ones are skipped. */
  method AddTxYears(cal: Calendar, txs: seq<Tx>, seen: seq<int>) returns (seen': seq<int>)
    requires NoDuplicates(seen)
    ensures NoDuplicates(seen')
    ensures |seen| <= |seen'| && seen'[..|seen|] == seen
    ensures forall z :: z in seen' <==> z in seen || z in TxYears(cal, txs)
  {
    seen' := seen;
    for ti := 0 to |txs|
      invariant NoDuplicates(seen')
      invariant |seen| <= |seen'| && seen'[..|seen|] == seen
      invariant forall z :: z in seen' <==> z in seen || z in TxYears(cal, txs[..ti])
    {
      var y := cal.yearOf(txs[ti].date);
      if y !in seen' {
        seen' := seen' + [y];
      }
      assert txs[..ti + 1][..ti] == txs[..ti];
    }
    assert txs[..|txs|] == txs;
  }

  /** `jobs.forEach(job => (job.transactions || []).forEach(...))`. */
  method AddJobYears(cal: Calendar, jobs: seq<Job>, seen: seq<int>) returns (seen': seq<int>)
    requires NoDuplicates(seen)
    ensures NoDuplicates(seen')
    ensures |seen| <= |seen'| && seen'[..|seen|] == seen
    ensures forall z :: z in seen' <==> z in seen || z in JobYears(cal, jobs)
  {
    seen' := seen;
    for ji := 0 to |jobs|
      invariant NoDuplicates(seen')
      invariant |seen| <= |seen'| && seen'[..|seen|] == seen
      invariant forall z :: z in seen' <==> z in seen || z in JobYears(cal, jobs[..ji])
    {
      ghost var before := seen';
      seen' := AddTxYears(cal, TxsOf(jobs[ji]), seen');
      assert seen'[..|seen|] == before[..|before|][..|seen|];
      assert jobs[..ji + 1][..ji] == jobs[..ji];
    }
    assert jobs[..|jobs|] == jobs;
  }

  /** `clients.forEach(client => client.jobs.forEach(...))`. */
  method AddClientYears(cal: Calendar, clients: seq<Client>, seen: seq<int>) returns (seen': seq<int>)
    requires NoDuplicates(seen)
    ensures NoDuplicates(seen')
    ensures |seen| <= |seen'| && seen'[..|seen|] == seen
    ensures forall z :: z in seen' <==> z in seen || z in ClientYears(cal, clients)
  {
    seen' := seen;
    for ci := 0 to |clients|
      invariant NoDuplicates(seen')
      invariant |seen| <= |seen'| && seen'[..|seen|] == seen
      invariant forall z :: z in seen' <==> z in seen || z in ClientYears(cal, clients[..ci])
    {
      ghost var before := seen';
      seen' := AddJobYears(cal, clients[ci].jobs, seen');
      assert seen'[..|seen|] == before[..|before|][..|seen|];
      assert clients[..ci + 1][..ci] == clients[..ci];
    }
    assert clients[..|clients|] == clients;
  }

  /** `['All Time', ...Array.from(years).sort((a, b) => b - a)]` for a
      duplicate-free `years`. */
  function Listing(years: seq<int>): (r: seq<Period>)
    requires NoDuplicates(years)
    ensures |r| == |years| + 1 && r[0] == AllTime
    ensures forall i :: 1 <= i < |r| ==> r[i].Year?
    ensures forall i, j :: 1 <= i < j < |r| ==> r[i].year > r[j].year
    ensures forall y :: Year(y) in r <==> y in years
  {
    var sorted := SortBy(years, NewestYearFirst);
    PermutationNoDuplicates(years, sorted);
    ListingOf(years, sorted);
    [AllTime] + AsYears(sorted)
  }

  lemma {:induction false} ListingOf(years: seq<int>, sorted: seq<int>)
    requires multiset(sorted) == multiset(years)
    requires NoDuplicates(sorted)
    requires SortedBy(sorted, NewestYearFirst)
    ensures forall i, j :: 1 <= i < j < |sorted| + 1 ==>
              ([AllTime] + AsYears(sorted))[i].year > ([AllTime] + AsYears(sorted))[j].year
    ensures forall y :: Year(y) in [AllTime] + AsYears(sorted) <==> y in years
  {
    var r := [AllTime] + AsYears(sorted);
    forall i, j | 1 <= i < j < |r| ensures r[i].year > r[j].year {
      assert r[i].year == sorted[i - 1] && r[j].year == sorted[j - 1];
      assert NewestYearFirst(sorted[i - 1]) <= NewestYearFirst(sorted[j - 1]);
    }
    forall y ensures Year(y) in r <==> y in years {
      assert y in sorted <==> multiset(sorted)[y] > 0;
      assert y in years <==> multiset(years)[y] > 0;
      if Year(y) in r {
        var i :| 0 <= i < |r| && r[i] == Year(y);
        assert sorted[i - 1] == y;
      }
      if y in sorted {
        var i :| 0 <= i < |sorted| && sorted[i] == y;
        assert r[i + 1] == Year(y);
      }
    }
  }

  /** The catalog effect: a `Set` seeded with the current year and filled by
      nested loops over clients, jobs and transactions, then listed after
      'All Time' newest first. With no clients it is exactly
      ['All Time', currentYear]. */
  method AvailableYears(cal: Calendar, clients: seq<Client>, currentYear: int) returns (years: seq<Period>)
    ensures |years| >= 2 && years[0] == AllTime
    ensures forall i :: 1 <= i < |years| ==> years[i].Year?
    ensures forall i, j :: 1 <= i < j < |years| ==> years[i].year > years[j].year
    ensures forall y :: Year(y) in years <==> y == currentYear || y in ClientYears(cal, clients)
    ensures |clients| == 0 ==> years == [AllTime, Year(currentYear)]
  {
    if |clients| > 0 {
      var seen := AddClientYears(cal, clients, [currentYear]);
      years := Listing(seen);
    } else {
      years := [AllTime, Year(currentYear)];
    }
  }

  /** The catalog built from the client list covers exactly the years of the
      fetched jobs: grouping neither loses nor invents a transaction year. */
  lemma {:induction false} ListedYearsAreJobYears(cal: Calendar, jobs: seq<Job>)
    ensures ClientYears(cal, ClientList(jobs)) == JobYears(cal, jobs)
  {
    var cs := ClientList(jobs);
    ClientYearsMembers(cal, cs);
    JobYearsMembers(cal, jobs);
    ClientListBuckets(jobs);
    ClientListCoversJobs(jobs);
    forall y | y in JobYears(cal, jobs) ensures y in ClientYears(cal, cs) {
      var job, tx :| job in jobs && tx in TxsOf(job) && cal.yearOf(tx.date) == y;
      var c :| c in cs && c.name == ClientKey(job);
      assert job in JobsOf(jobs, c.name);
    }
    forall y | y in ClientYears(cal, cs) ensures y in JobYears(cal, jobs) {
      var c, job, tx :| c in cs && job in c.jobs && tx in TxsOf(job) && cal.yearOf(tx.date) == y;
      assert job in JobsOf(jobs, c.name);
    }
  }
}
