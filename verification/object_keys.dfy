/** The grouping loop as written keys its buckets in a plain object literal
    (`const clientMap = {}`), which also answers for the members it inherits
    from `Object.prototype`. A client named like one of them is found
    "present" before any bucket exists, so no bucket is created and
    `clientMap[clientName].jobs.push(job)` reads `.jobs` of an inherited
    member (undefined) and throws; the whole `.then` callback is abandoned
    and the client list is not updated. This module models that behaviour;
    the rest of the model uses the intended one (`ClientGrouping`), where
    only keys the loop stored are present. */
module InheritedKeys {
  import opened Records
  import opened ClientGrouping

  /** The property names every object literal inherits from
      `Object.prototype`. */
  const INHERITED: set<string> := {
    "constructor", "hasOwnProperty", "isPrototypeOf", "propertyIsEnumerable",
    "toLocaleString", "toString", "valueOf", "__proto__",
    "__defineGetter__", "__defineSetter__", "__lookupGetter__", "__lookupSetter__"
  }

  /** What `clientMap[name]` yields: a stored bucket position, an inherited
      member (truthy, without a `jobs` field), or `undefined`. The operations
      below take the inherited names as `inherited`; the runtime supplies
      `INHERITED`. */
  datatype Slot = Own(index: nat) | Inherited | Missing

  function Lookup(inherited: set<string>, clientMap: map<string, nat>, name: string): Slot
  {
    if name in clientMap then Own(clientMap[name])
    else if name in inherited then Inherited
    else Missing
  }

  /** The buckets the loop as written reaches, or `None` once a job's key is
      an inherited name and the push throws. */
  function GroupedAsWritten(inherited: set<string>, jobs: seq<Job>): Option<seq<Client>>
    decreases |jobs|
  {
    if |jobs| == 0 then Some([])
    else
      match GroupedAsWritten(inherited, jobs[..|jobs| - 1])
      case None => None
      case Some(g) =>
        if ClientKey(jobs[|jobs| - 1]) in inherited then None
        else Some(AddJob(g, jobs[|jobs| - 1]))
  }

  /** The loop as written throws exactly when some job's key is an inherited
      name; otherwise it builds the intended buckets. */
  lemma {:induction false} AsWrittenThrowsOnInheritedKey(inherited: set<string>, jobs: seq<Job>)
    ensures GroupedAsWritten(inherited, jobs).None? <==> exists n :: 0 <= n < |jobs| && ClientKey(jobs[n]) in inherited
    ensures GroupedAsWritten(inherited, jobs).Some? ==> GroupedAsWritten(inherited, jobs).value == Grouped(jobs)
    decreases |jobs|
  {
    if |jobs| > 0 {
      var p, x := jobs[..|jobs| - 1], jobs[|jobs| - 1];
      AsWrittenThrowsOnInheritedKey(inherited, p);
      if GroupedAsWritten(inherited, p).None? {
        var n :| 0 <= n < |p| && ClientKey(p[n]) in inherited;
        assert jobs[n] == p[n];
      } else if ClientKey(x) !in inherited {
        forall n | 0 <= n < |jobs| ensures ClientKey(jobs[n]) !in inherited {
          if n < |p| {
            assert jobs[n] == p[n];
          }
        }
      }
    }
  }

  /** One job for a client called "constructor": the loop as written
      throws, while the intended grouping gives that client its own bucket. */
  lemma ConstructorClientIsLost()
    ensures GroupedAsWritten(INHERITED, [Job(Some("constructor"), "Deck", None)]).None?
    ensures Grouped([Job(Some("constructor"), "Deck", None)]) ==
            [Client("constructor", [Job(Some("constructor"), "Deck", None)], 0, 0)]
  {
    var job := Job(Some("constructor"), "Deck", None);
    assert ClientKey(job) == "constructor";
    assert [job][..0] == [];
    LoneJobGetsOwnBucket(job);
  }

  /** The intended grouping of a single job is one bucket holding it. */
  lemma LoneJobGetsOwnBucket(job: Job)
    ensures Grouped([job]) == [Client(ClientKey(job), [job], 0, 0)]
  {
    var none: seq<Client> := [];
    var empty := Client(ClientKey(job), [], 0, 0);
    var bucket := Client(ClientKey(job), [job], 0, 0);
    assert [job][..0] == [];
    assert Find(none, ClientKey(job)) == 0;
    assert none + [empty] == [empty];
    assert empty.(jobs := empty.jobs + [job]) == bucket;
    assert [empty][0 := bucket] == [bucket];
    assert AddJob(none, job) == [bucket];
  }

  /** The grouping loop with the lookup an object literal performs. */
  method GroupByClientAsWritten(inherited: set<string>, jobs: seq<Job>) returns (result: Option<seq<Client>>)
    ensures result == GroupedAsWritten(inherited, jobs)
  {
    var clientMap: map<string, nat> := map[];
    var groups: seq<Client> := [];
    for n := 0 to |jobs|
      invariant GroupedAsWritten(inherited, jobs[..n]) == Some(groups)
      invariant MapIndexes(clientMap, groups)
      invariant forall k :: k in clientMap ==> k !in inherited
    {
      AsWrittenStep(inherited, jobs, n, groups);
      var slot := Lookup(inherited, clientMap, ClientKey(jobs[n]));
      if slot.Inherited? {
        // truthy, so no bucket is made; its `.jobs` is undefined and `push` throws
        GroupedAsWrittenStaysNone(inherited, jobs, n + 1);
        return None;
      }
      // an own bucket or `undefined`: the step of the intended loop
      clientMap, groups := AddToBucket(clientMap, groups, jobs[n]);
    }
    assert jobs[..|jobs|] == jobs;
    result := Some(groups);
  }

  lemma {:induction false} AsWrittenStep(inherited: set<string>, jobs: seq<Job>, n: nat, g: seq<Client>)
    requires n < |jobs|
    requires GroupedAsWritten(inherited, jobs[..n]) == Some(g)
    ensures GroupedAsWritten(inherited, jobs[..n + 1]) ==
            if ClientKey(jobs[n]) in inherited then None else Some(AddJob(g, jobs[n]))
  {
    assert jobs[..n + 1][..n] == jobs[..n];
  }

  /** Once the loop has thrown, later jobs cannot undo it. */
  lemma {:induction false} GroupedAsWrittenStaysNone(inherited: set<string>, jobs: seq<Job>, n: nat)
    requires n <= |jobs|
    requires GroupedAsWritten(inherited, jobs[..n]) == None
    ensures GroupedAsWritten(inherited, jobs) == None
    decreases |jobs| - n
  {
    if n < |jobs| {
      assert jobs[..n + 1][..n] == jobs[..n];
      GroupedAsWrittenStaysNone(inherited, jobs, n + 1);
    } else {
      assert jobs[..n] == jobs;
    }
  }
}
