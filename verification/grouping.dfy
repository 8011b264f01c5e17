/** The `fetchJobs` pipeline of the Clients screen, after the fetch: jobs are
    bucketed by client name in a keyed map, each bucket gets its all-time
    income and expense totals, and the buckets are ranked by ascending net
    revenue. */
module ClientGrouping {
  import opened Records
  import opened Seqs
  import opened JobTotals

  function Names(cs: seq<Client>): seq<string>
  {
    seq(|cs|, i requires 0 <= i < |cs| => cs[i].name)
  }

  /** The bucket key of every job, in input order. */
  function Keys(jobs: seq<Job>): seq<string>
  {
    seq(|jobs|, i requires 0 <= i < |jobs| => ClientKey(jobs[i]))
  }

  function HasClientKey(name: string): Job -> bool
  {
    job => ClientKey(job) == name
  }

  /** The jobs whose bucket key is `name`, in input order. */
  function JobsOf(jobs: seq<Job>, name: string): seq<Job>
  {
    Filter(jobs, HasClientKey(name))
  }

  /** Position of the bucket called `name`, or `|cs|` when there is none. */
  function Find(cs: seq<Client>, name: string): (i: nat)
    ensures i <= |cs|
    ensures i < |cs| ==> cs[i].name == name
    ensures forall k :: 0 <= k < i ==> cs[k].name != name
    decreases |cs|
  {
    if |cs| == 0 then 0
    else if cs[0].name == name then 0
    else 1 + Find(cs[1..], name)
  }

  /** One pass of the grouping loop: create the bucket on first sight of its
      key, then push the job onto it. */
  function AddJob(cs: seq<Client>, job: Job): seq<Client>
  {
    var name := ClientKey(job);
    var i := Find(cs, name);
    var buckets := if i < |cs| then cs else cs + [Client(name, [], 0, 0)];
    buckets[i := buckets[i].(jobs := buckets[i].jobs + [job])]
  }

  /** The buckets after the grouping loop has consumed `jobs`, in the order
      their keys were first seen. */
  function Grouped(jobs: seq<Job>): seq<Client>
  {
    if |jobs| == 0 then []
    else AddJob(Grouped(jobs[..|jobs| - 1]), jobs[|jobs| - 1])
  }

  /** Every bucket holds exactly the jobs with its key, in input order, and
      zero totals. */
  predicate BucketsHold(g: seq<Client>, jobs: seq<Job>)
  {
    forall i :: 0 <= i < |g| ==>
      g[i].jobs == JobsOf(jobs, g[i].name) && g[i].totalIncome == 0 && g[i].totalExpenses == 0
  }

  lemma {:induction false} KeysSnoc(p: seq<Job>, x: Job)
    ensures Keys(p + [x]) == Keys(p) + [ClientKey(x)]
  {
  }

  lemma {:induction false} DistinctSnoc(s: seq<string>, x: string)
    ensures Distinct(s + [x]) == if x in Distinct(s) then Distinct(s) else Distinct(s) + [x]
  {
    assert (s + [x])[..|s|] == s;
  }

  lemma {:induction false} JobsOfSnoc(p: seq<Job>, x: Job, name: string)
    ensures JobsOf(p + [x], name) == JobsOf(p, name) + (if ClientKey(x) == name then [x] else [])
  {
    FilterConcat(p, [x], HasClientKey(name));
    FilterCons(x, [], HasClientKey(name));
    assert [x] + [] == [x];
  }

  lemma {:induction false} JobsOfAbsent(p: seq<Job>, name: string)
    requires name !in Keys(p)
    ensures JobsOf(p, name) == []
  {
    forall y | y in p ensures !HasClientKey(name)(y) {
      var m :| 0 <= m < |p| && p[m] == y;
      assert Keys(p)[m] == ClientKey(y);
    }
    FilterNone(p, HasClientKey(name));
  }

  /** The names after one pass: a new key is appended, a known one changes
      nothing. */
  lemma {:induction false} AddJobNames(g: seq<Client>, x: Job)
    ensures Names(AddJob(g, x)) ==
      if ClientKey(x) in Names(g) then Names(g) else Names(g) + [ClientKey(x)]
  {
    var k, i := ClientKey(x), Find(g, ClientKey(x));
    if i < |g| {
      assert Names(g)[i] == k;
    } else {
      assert k !in Names(g);
    }
  }

  /** The buckets after one pass: the job is pushed onto the bucket named by
      its key and no other. */
  lemma {:induction false} AddJobBuckets(g: seq<Client>, p: seq<Job>, x: Job)
    requires NoDuplicates(Names(g))
    requires BucketsHold(g, p)
    requires forall k :: k in Keys(p) <==> k in Names(g)
    ensures BucketsHold(AddJob(g, x), p + [x])
  {
    var k, i := ClientKey(x), Find(g, ClientKey(x));
    var g' := AddJob(g, x);
    forall j | 0 <= j < |g'|
      ensures g'[j].jobs == JobsOf(p + [x], g'[j].name) && g'[j].totalIncome == 0 && g'[j].totalExpenses == 0
    {
      JobsOfSnoc(p, x, g'[j].name);
      if j == i {
        if i == |g| {
          assert k !in Names(g);
          JobsOfAbsent(p, k);
        }
      } else {
        assert j < |g| && g'[j] == g[j];
        if i < |g| {
          assert Names(g)[i] != Names(g)[j];
        }
      }
    }
  }

  /** One bucket per distinct key, in the order the keys are first seen. */
  lemma {:induction false} GroupedNames(jobs: seq<Job>)
    ensures Names(Grouped(jobs)) == Distinct(Keys(jobs))
    decreases |jobs|
  {
    if jobs != [] {
      var p, x := jobs[..|jobs| - 1], jobs[|jobs| - 1];
      assert jobs == p + [x];
      GroupedNames(p);
      KeysSnoc(p, x);
      DistinctSnoc(Keys(p), ClientKey(x));
      AddJobNames(Grouped(p), x);
    }
  }

  /** The grouping is a partition by key: each bucket holds exactly the jobs
      with its key, in input order, with zero totals. */
  lemma {:induction false} GroupedBuckets(jobs: seq<Job>)
    ensures BucketsHold(Grouped(jobs), jobs)
    decreases |jobs|
  {
    if jobs != [] {
      var p, x := jobs[..|jobs| - 1], jobs[|jobs| - 1];
      assert jobs == p + [x];
      GroupedBuckets(p);
      GroupedNames(p);
      AddJobBuckets(Grouped(p), p, x);
    }
  }

  /** Every job lands in the one bucket named by its key, and in no other. */
  lemma {:induction false} EachJobInExactlyOneGroup(jobs: seq<Job>, n: nat)
    requires n < |jobs|
    ensures exists i :: 0 <= i < |Grouped(jobs)| && Grouped(jobs)[i].name == ClientKey(jobs[n]) &&
                        jobs[n] in Grouped(jobs)[i].jobs
    ensures forall i :: 0 <= i < |Grouped(jobs)| && jobs[n] in Grouped(jobs)[i].jobs ==>
      Grouped(jobs)[i].name == ClientKey(jobs[n])
    ensures NoDuplicates(Names(Grouped(jobs)))
  {
    GroupedNames(jobs);
    GroupedBuckets(jobs);
    var g := Grouped(jobs);
    assert Keys(jobs)[n] == ClientKey(jobs[n]);
    assert ClientKey(jobs[n]) in Names(g);
    var i :| 0 <= i < |g| && Names(g)[i] == ClientKey(jobs[n]);
    assert jobs[n] in g[i].jobs;
  }

  /** Buckets appear in the order in which their keys first occur. */
  lemma {:induction false} GroupsInFirstSeenOrder(jobs: seq<Job>)
    ensures forall i, j :: 0 <= i < j < |Names(Grouped(jobs))| ==>
      Names(Grouped(jobs))[i] in Keys(jobs) && Names(Grouped(jobs))[j] in Keys(jobs) &&
      FirstIndex(Keys(jobs), Names(Grouped(jobs))[i]) < FirstIndex(Keys(jobs), Names(Grouped(jobs))[j])
  {
    GroupedNames(jobs);
    DistinctFirstSeen(Keys(jobs));
  }

  /** `Find` depends on the bucket names only. */
  lemma {:induction false} FindByNames(a: seq<Client>, b: seq<Client>, name: string)
    requires Names(a) == Names(b)
    ensures Find(a, name) == Find(b, name)
  {
    assert forall k :: 0 <= k < |a| ==> a[k].name == Names(a)[k] == Names(b)[k] == b[k].name;
  }

  lemma {:induction false} FindSnoc(g: seq<Client>, c: Client, name: string)
    ensures Find(g + [c], name) == if Find(g, name) < |g| || c.name == name then Find(g, name) else |g| + 1
  {
    if g == [] {
      assert [] + [c] == [c];
    } else {
      assert (g + [c])[1..] == g[1..] + [c];
      FindSnoc(g[1..], c, name);
    }
  }

  /** `clientMap` gives, for each key it holds, the position of the bucket of
      that name, and it holds every key that has a bucket. */
  ghost predicate MapIndexes(clientMap: map<string, nat>, groups: seq<Client>)
  {
    forall k :: (k in clientMap <==> Find(groups, k) < |groups|) &&
                (k in clientMap ==> clientMap[k] == Find(groups, k))
  }

  lemma {:induction false} CreateBucket(clientMap: map<string, nat>, groups: seq<Client>, name: string)
    requires MapIndexes(clientMap, groups)
    requires name !in clientMap
    ensures MapIndexes(clientMap[name := |groups|], groups + [Client(name, [], 0, 0)])
  {
    forall k ensures Find(groups + [Client(name, [], 0, 0)], k) ==
      if Find(groups, k) < |groups| || k == name then Find(groups, k) else |groups| + 1
    {
      FindSnoc(groups, Client(name, [], 0, 0), k);
    }
  }

  lemma {:induction false} PushJob(clientMap: map<string, nat>, groups: seq<Client>, name: string, job: Job)
    requires MapIndexes(clientMap, groups)
    requires name in clientMap
    ensures clientMap[name] < |groups|
    ensures MapIndexes(clientMap, groups[clientMap[name] := groups[clientMap[name]].(jobs := groups[clientMap[name]].jobs + [job])])
  {
    var at := clientMap[name];
    var g' := groups[at := groups[at].(jobs := groups[at].jobs + [job])];
    assert Names(g') == Names(groups);
    forall k ensures Find(g', k) == Find(groups, k) {
      FindByNames(g', groups, k);
    }
  }

  /** The grouping loop: `clientMap` maps a key to the position of its bucket
      in `groups`; a missing key gets a fresh empty bucket, then the job is
      pushed onto its bucket. `Object.values` lists the buckets in creation
      order. `clientMap` holds only the keys the loop stored; the members an
      object literal inherits are modelled in `InheritedKeys`. */
  method GroupByClient(jobs: seq<Job>) returns (groups: seq<Client>)
    ensures groups == Grouped(jobs)
  {
    var clientMap: map<string, nat> := map[];
    groups := [];
    for n := 0 to |jobs|
      invariant groups == Grouped(jobs[..n])
      invariant MapIndexes(clientMap, groups)
    {
      GroupedStep(jobs, n);
      clientMap, groups := AddToBucket(clientMap, groups, jobs[n]);
    }
    assert jobs[..|jobs|] == jobs;
  }

  lemma {:induction false} GroupedStep(jobs: seq<Job>, n: nat)
    requires n < |jobs|
    ensures Grouped(jobs[..n + 1]) == AddJob(Grouped(jobs[..n]), jobs[n])
  {
    assert jobs[..n + 1][..n] == jobs[..n];
  }

  /** The body of the grouping loop for one job: on first sight of its key an
      empty bucket is appended and its position stored under the key; then
      the job is pushed onto the bucket the key names. */
  method AddToBucket(clientMap: map<string, nat>, groups: seq<Client>, job: Job)
    returns (clientMap': map<string, nat>, groups': seq<Client>)
    requires MapIndexes(clientMap, groups)
    ensures groups' == AddJob(groups, job)
    ensures MapIndexes(clientMap', groups')
    ensures clientMap'.Keys == clientMap.Keys + {ClientKey(job)}
  {
    clientMap', groups' := clientMap, groups;
    var clientName := ClientKey(job);
    if clientName !in clientMap' {
      CreateBucket(clientMap', groups', clientName);
      clientMap' := clientMap'[clientName := |groups'|];
      groups' := groups' + [Client(clientName, [], 0, 0)];
    }
    PushJob(clientMap', groups', clientName, job);
    var at := clientMap'[clientName];
    groups' := groups'[at := groups'[at].(jobs := groups'[at].jobs + [job])];
  }

  /** A bucket with its all-time totals filled in. */
  function WithTotals(c: Client): Client
  {
    c.(totalIncome := ClientIncome(c.jobs), totalExpenses := ClientExpenses(c.jobs))
  }

  function Totalled(cs: seq<Client>): seq<Client>
  {
    seq(|cs|, i requires 0 <= i < |cs| => WithTotals(cs[i]))
  }

  /** The `.map` step: each bucket's `totalIncome` and `totalExpenses` are
      assigned in place; names and jobs are left alone. */
  method AssignTotals(groups: seq<Client>) returns (clients: seq<Client>)
    ensures |clients| == |groups|
    ensures forall i :: 0 <= i < |groups| ==>
      clients[i].name == groups[i].name && clients[i].jobs == groups[i].jobs &&
      clients[i].totalIncome == ClientIncome(groups[i].jobs) &&
      clients[i].totalExpenses == ClientExpenses(groups[i].jobs)
  {
    clients := groups;
    for i := 0 to |clients|
      invariant |clients| == |groups|
      invariant forall k :: 0 <= k < i ==> clients[k] == WithTotals(groups[k])
      invariant forall k :: i <= k < |clients| ==> clients[k] == groups[k]
    {
      var client := clients[i];
      client := client.(totalIncome := ClientIncome(client.jobs));
      client := client.(totalExpenses := ClientExpenses(client.jobs));
      clients := clients[i := client];
    }
  }

  /** The `.sort` step: ascending by revenue, stable. */
  function RankByRevenue(clients: seq<Client>): seq<Client>
  {
    SortBy(clients, Revenue)
  }

  /** The client list `fetchJobs` stores: grouped, totalled, ranked. */
  function ClientList(jobs: seq<Job>): seq<Client>
  {
    RankByRevenue(Totalled(Grouped(jobs)))
  }

  /** The body of the `.then((jobs) => ...)` callback; a missing response
      body counts as no jobs. */
  method ProcessJobs(jobs: Option<seq<Job>>) returns (clients: seq<Client>)
    ensures clients == ClientList(JobsOrEmpty(jobs))
  {
    var groups := GroupByClient(JobsOrEmpty(jobs));
    var totalled := AssignTotals(groups);
    assert totalled == Totalled(groups);
    clients := RankByRevenue(totalled);
  }

  /** The ranked list is a permutation of the totalled buckets, non-decreasing
      in revenue, and buckets of equal revenue keep their first-seen order. */
  lemma {:induction false} ClientListRanked(jobs: seq<Job>)
    ensures multiset(ClientList(jobs)) == multiset(Totalled(Grouped(jobs)))
    ensures forall i, j :: 0 <= i < j < |ClientList(jobs)| ==>
      Revenue(ClientList(jobs)[i]) <= Revenue(ClientList(jobs)[j])
    ensures forall v :: WithKey(ClientList(jobs), Revenue, v) == WithKey(Totalled(Grouped(jobs)), Revenue, v)
  {
    forall v ensures WithKey(ClientList(jobs), Revenue, v) == WithKey(Totalled(Grouped(jobs)), Revenue, v) {
      SortByStable(Totalled(Grouped(jobs)), Revenue, v);
    }
  }

  lemma {:induction false} ClientListMembers(jobs: seq<Job>)
    ensures forall c :: c in ClientList(jobs) <==> c in Totalled(Grouped(jobs))
  {
    var t, r := Totalled(Grouped(jobs)), ClientList(jobs);
    forall c ensures c in r <==> c in t {
      assert c in r <==> multiset(r)[c] > 0;
      assert c in t <==> multiset(t)[c] > 0;
    }
  }

  /** With distinct names, a name identifies its client. */
  lemma {:induction false} NamesIdentify(cs: seq<Client>)
    requires NoDuplicates(Names(cs))
    ensures NoDuplicates(cs)
    ensures forall c, d :: c in cs && d in cs && c.name == d.name ==> c == d
  {
    forall c, d | c in cs && d in cs && c.name == d.name ensures c == d {
      var i :| 0 <= i < |cs| && cs[i] == c;
      var j :| 0 <= j < |cs| && cs[j] == d;
      assert Names(cs)[i] == Names(cs)[j];
    }
    forall i, j | 0 <= i < j < |cs| ensures cs[i] != cs[j] {
      assert Names(cs)[i] != Names(cs)[j];
    }
  }

  /** Client names in the list are pairwise distinct. */
  lemma {:induction false} ClientListNamesUnique(jobs: seq<Job>)
    ensures NoDuplicates(Names(ClientList(jobs)))
  {
    var g := Grouped(jobs);
    var t, r := Totalled(g), ClientList(jobs);
    GroupedNames(jobs);
    assert Names(t) == Names(g);
    NamesIdentify(t);
    PermutationNoDuplicates(t, r);
    ClientListMembers(jobs);
    forall i, j | 0 <= i < j < |r| ensures Names(r)[i] != Names(r)[j] {
      assert r[i] != r[j];
      assert r[i] in t && r[j] in t;
    }
  }

  /** Each client holds exactly the jobs with its key, in input order (at
      least one), and totals equal to the income and expense sums of those
      jobs. */
  lemma {:induction false} ClientListBuckets(jobs: seq<Job>)
    ensures forall c :: c in ClientList(jobs) ==>
      c.jobs == JobsOf(jobs, c.name) && c.jobs != [] &&
      c.totalIncome == ClientIncome(c.jobs) && c.totalExpenses == ClientExpenses(c.jobs)
  {
    TotalledBuckets(jobs);
    ClientListMembers(jobs);
  }

  lemma {:induction false} TotalledBuckets(jobs: seq<Job>)
    ensures forall c :: c in Totalled(Grouped(jobs)) ==>
      c.jobs == JobsOf(jobs, c.name) && c.jobs != [] &&
      c.totalIncome == ClientIncome(c.jobs) && c.totalExpenses == ClientExpenses(c.jobs)
  {
    var g := Grouped(jobs);
    forall c | c in Totalled(g)
      ensures c.jobs == JobsOf(jobs, c.name) && c.jobs != []
    {
      var i :| 0 <= i < |g| && Totalled(g)[i] == c;
      GroupedBucketAt(jobs, i);
    }
  }

  /** The bucket at position `i` holds the jobs with its key, and at least one. */
  lemma {:induction false} GroupedBucketAt(jobs: seq<Job>, i: nat)
    requires i < |Grouped(jobs)|
    ensures Grouped(jobs)[i].jobs == JobsOf(jobs, Grouped(jobs)[i].name)
    ensures Grouped(jobs)[i].jobs != []
  {
    var g := Grouped(jobs);
    GroupedNames(jobs);
    GroupedBuckets(jobs);
    assert Names(g)[i] in Distinct(Keys(jobs));
    var m :| 0 <= m < |jobs| && Keys(jobs)[m] == g[i].name;
    assert jobs[m] in JobsOf(jobs, g[i].name);
  }

  /** Every job's key names a client of the list. */
  lemma {:induction false} ClientListCoversJobs(jobs: seq<Job>)
    ensures forall job :: job in jobs ==> exists c :: c in ClientList(jobs) && c.name == ClientKey(job)
  {
    var g := Grouped(jobs);
    ClientListMembers(jobs);
    forall job | job in jobs ensures exists c :: c in ClientList(jobs) && c.name == ClientKey(job) {
      var m :| 0 <= m < |jobs| && jobs[m] == job;
      EachJobInExactlyOneGroup(jobs, m);
      var i :| 0 <= i < |g| && g[i].name == ClientKey(job);
      assert Totalled(g)[i] in Totalled(g);
    }
  }

  /** For 'All Time', `calculateJobTotals` over a listed client's jobs gives
      back the totals stored on that client. */
  lemma {:induction false} ClientListAllTime(cal: Calendar, jobs: seq<Job>)
    ensures forall c :: c in ClientList(jobs) ==>
      PeriodTotals(cal, c.jobs, AllTime) == Totals(c.totalIncome, c.totalExpenses) &&
      ClientTotals(cal, Some(c), AllTime) == Summary(c.totalIncome, c.totalExpenses, Revenue(c))
  {
    ClientListBuckets(jobs);
    forall c | c in ClientList(jobs)
      ensures PeriodTotals(cal, c.jobs, AllTime) == Totals(c.totalIncome, c.totalExpenses)
    {
      AllTimeAgreesWithClientTotals(cal, c.jobs);
    }
  }

  /** Adding one job to the buckets adds that job's net to the sum of the
      buckets' revenues. */
  lemma {:induction false} AddJobRevenue(g: seq<Client>, x: Job)
    ensures SumBy(Totalled(AddJob(g, x)), Revenue) == SumBy(Totalled(g), Revenue) + JobIncome(x) - JobExpenses(x)
  {
    if Find(g, ClientKey(x)) < |g| {
      PushRevenue(g, x);
    } else {
      NewBucketRevenue(g, x);
    }
  }

  /** Pushing a job onto a bucket raises its revenue by that job's net. */
  lemma {:induction false} BucketRevenue(c: Client, x: Job)
    ensures Revenue(WithTotals(c.(jobs := c.jobs + [x]))) == Revenue(WithTotals(c)) + JobIncome(x) - JobExpenses(x)
  {
    SumByConcat(c.jobs, [x], JobIncome);
    SumByConcat(c.jobs, [x], JobExpenses);
    assert [x][1..] == [];
  }

  lemma {:induction false} TotalledUpdate(g: seq<Client>, i: nat, c: Client)
    requires i < |g|
    ensures Totalled(g[i := c]) == Totalled(g)[i := WithTotals(c)]
  {
  }

  lemma {:induction false} TotalledSnoc(g: seq<Client>, c: Client)
    ensures Totalled(g + [c]) == Totalled(g) + [WithTotals(c)]
  {
  }

  lemma {:induction false} PushRevenue(g: seq<Client>, x: Job)
    requires Find(g, ClientKey(x)) < |g|
    ensures SumBy(Totalled(AddJob(g, x)), Revenue) == SumBy(Totalled(g), Revenue) + JobIncome(x) - JobExpenses(x)
  {
    var i := Find(g, ClientKey(x));
    var c' := g[i].(jobs := g[i].jobs + [x]);
    assert AddJob(g, x) == g[i := c'];
    TotalledUpdate(g, i, c');
    SumByUpdate(Totalled(g), i, WithTotals(c'), Revenue);
    BucketRevenue(g[i], x);
  }

  lemma {:induction false} AddJobNewBucket(g: seq<Client>, x: Job)
    requires Find(g, ClientKey(x)) == |g|
    ensures AddJob(g, x) == g + [Client(ClientKey(x), [x], 0, 0)]
  {
    assert [] + [x] == [x];
  }

  lemma {:induction false} NewBucketRevenue(g: seq<Client>, x: Job)
    requires Find(g, ClientKey(x)) == |g|
    ensures SumBy(Totalled(AddJob(g, x)), Revenue) == SumBy(Totalled(g), Revenue) + JobIncome(x) - JobExpenses(x)
  {
    var c := Client(ClientKey(x), [x], 0, 0);
    AddJobNewBucket(g, x);
    TotalledSnoc(g, c);
    SumBySnoc(Totalled(g), WithTotals(c), Revenue);
    SingleJobRevenue(c);
  }

  lemma {:induction false} SingleJobRevenue(c: Client)
    requires |c.jobs| == 1
    ensures Revenue(WithTotals(c)) == JobIncome(c.jobs[0]) - JobExpenses(c.jobs[0])
  {
    assert c.jobs == [] + [c.jobs[0]];
    SumBySnoc([], c.jobs[0], JobIncome);
    SumBySnoc([], c.jobs[0], JobExpenses);
  }

  /** Net revenue is conserved: the revenues of the listed clients add up to
      the income minus the expenses of all the jobs. */
  lemma {:induction false} RevenueConserved(jobs: seq<Job>)
    ensures SumBy(ClientList(jobs), Revenue) == ClientIncome(jobs) - ClientExpenses(jobs)
  {
    SumBySortBy(Totalled(Grouped(jobs)), Revenue, Revenue);
    TotalledRevenue(jobs);
  }

  lemma {:induction false} TotalledRevenue(jobs: seq<Job>)
    ensures SumBy(Totalled(Grouped(jobs)), Revenue) == ClientIncome(jobs) - ClientExpenses(jobs)
    decreases |jobs|
  {
    if jobs != [] {
      var p, x := jobs[..|jobs| - 1], jobs[|jobs| - 1];
      assert jobs == p + [x];
      TotalledRevenue(p);
      AddJobRevenue(Grouped(p), x);
      SumByConcat(p, [x], JobIncome);
      SumByConcat(p, [x], JobExpenses);
    }
  }
}
