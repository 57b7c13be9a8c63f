/**
 * Reading the batch system's queue listing and selecting jobs from it.
 */
module BatchHelpers {
  import opened Wrappers
  import opened PyStr
  import opened StableSort

  /** One line of the queue listing, as a record of its first eight fields. */
  datatype Job = Job(jobID: string, partition: string, title: string, user: string,
                     status: string, time: string, nNodes: string, worker: string)

  /** `read_info_from_batchLine`: fields 0 to 7 of `line.split()`; fewer raise IndexError. */
  function ReadInfoFromBatchLine(line: string): (r: Result<Job>)
    ensures r.Raises? <==> |SplitWs(line)| < 8
    ensures r.Ok? ==> var e := SplitWs(line);
      r.value == Job(e[0], e[1], e[2], e[3], e[4], e[5], e[6], e[7])
  {
    var entries := SplitWs(line);
    if |entries| < 8 then Raises(IndexError)
    else Ok(Job(entries[0], entries[1], entries[2], entries[3], entries[4], entries[5], entries[6], entries[7]))
  }

  /** `format_batchInfo`: one record per line, in order; the first short line raises. */
  method FormatBatchInfo(batchOutput: seq<string>) returns (r: Result<seq<Job>>)
    ensures r.Ok? <==> forall i :: 0 <= i < |batchOutput| ==> ReadInfoFromBatchLine(batchOutput[i]).Ok?
    ensures r.Ok? ==> |r.value| == |batchOutput|
    ensures r.Ok? ==> forall i :: 0 <= i < |batchOutput| ==> Ok(r.value[i]) == ReadInfoFromBatchLine(batchOutput[i])
    ensures r.Raises? ==> exists i :: (0 <= i < |batchOutput| && ReadInfoFromBatchLine(batchOutput[i]) == Raises(r.exc) &&
      forall k :: 0 <= k < i ==> ReadInfoFromBatchLine(batchOutput[k]).Ok?)
    ensures r.Raises? ==> r.exc == IndexError
  {
    var out: seq<Job> := [];
    for i := 0 to |batchOutput|
      invariant |out| == i
      invariant forall k :: 0 <= k < i ==> Ok(out[k]) == ReadInfoFromBatchLine(batchOutput[k])
    {
      var info := ReadInfoFromBatchLine(batchOutput[i]);
      if info.Raises? {
        return Raises(info.exc);
      }
      out := out + [info.value];
    }
    r := Ok(out);
  }

  /** `filter_with_wildcards(str, comp)` */
  predicate FilterWithWildcards(s: string, comp: string) {
    if StartsWith(comp, "*") && CountChar(comp, '*') == 1 then EndsWith(s, comp[1..])
    else if EndsWith(comp, "*") && CountChar(comp, '*') == 1 then StartsWith(s, comp[..|comp| - 1])
    else if EndsWith(comp, "*") && StartsWith(comp, "*") && CountChar(comp, '*') == 2 then Contains(s, comp[1..|comp| - 1])
    else s == comp
  }

  lemma StarMatchesAll(s: string)
    ensures FilterWithWildcards(s, "*")
  {
    assert s[|s|..] == [];
  }

  /** `*rest` with no other star matches the strings ending in `rest`. */
  lemma LeadingStar(s: string, rest: string)
    requires '*' !in rest
    ensures FilterWithWildcards(s, "*" + rest) <==> EndsWith(s, rest)
  {
    var comp := "*" + rest;
    CountCharAppend("*", rest, '*');
    assert comp[..1] == "*" && comp[1..] == rest;
  }

  /** `rest*` with no other star matches the strings starting with `rest`. */
  lemma TrailingStar(s: string, rest: string)
    requires '*' !in rest
    ensures FilterWithWildcards(s, rest + "*") <==> StartsWith(s, rest)
  {
    var comp := rest + "*";
    if rest == "" {
      assert comp == "*";
      StarMatchesAll(s);
    } else {
      CountCharAppend(rest, "*", '*');
      assert comp[..1] == [rest[0]];
      assert comp[|comp| - 1..] == "*" && comp[..|comp| - 1] == rest;
    }
  }

  /** `*mid*` with no other star matches the strings containing `mid`. */
  lemma BothStars(s: string, mid: string)
    requires '*' !in mid
    ensures FilterWithWildcards(s, "*" + mid + "*") <==> Contains(s, mid)
  {
    var comp := "*" + mid + "*";
    CountCharAppend("*" + mid, "*", '*');
    CountCharAppend("*", mid, '*');
    assert comp[..1] == "*" && comp[|comp| - 1..] == "*" && comp[1..|comp| - 1] == mid;
  }

  /** A pattern without a star matches only itself. */
  lemma NoStar(s: string, comp: string)
    requires '*' !in comp
    ensures FilterWithWildcards(s, comp) <==> s == comp
  {
    if comp != [] {
      assert comp[..1] == [comp[0]] && comp[|comp| - 1..] == [comp[|comp| - 1]];
    }
  }

  /**
   * An argument of `get_batchInfo`: not given (or of another type), a string, or
   * a list of strings.  Only a non-empty one is acted on.
   */
  datatype Arg = NoArg | Str(s: string) | List(items: seq<string>)

  predicate IsStr(a: Arg) { a.Str? && a.s != "" }
  predicate IsList(a: Arg) { a.List? && a.items != [] }

  predicate AnyMatch(s: string, patterns: seq<string>) {
    exists i :: 0 <= i < |patterns| && FilterWithWildcards(s, patterns[i])
  }

  predicate KnownPartitions(a: Arg) {
    (a.Str? ==> a.s in ["c", "m", "g"]) && (a.List? ==> forall i :: 0 <= i < |a.items| ==> a.items[i] in ["c", "m", "g"])
  }

  predicate KnownStatuses(a: Arg) {
    (a.Str? ==> a.s in ["R", "PD", "CG"]) && (a.List? ==> forall i :: 0 <= i < |a.items| ==> a.items[i] in ["R", "PD", "CG"])
  }

  datatype Query = Query(jobID: Arg, partition: Arg, title: Arg, user: Arg, status: Arg)

  /** The `k`-th filter of `get_batchInfo`, in the order they are applied; true when it is not applied. */
  predicate Keep(q: Query, k: nat, job: Job) {
    match k
    case 0 => IsStr(q.jobID) ==> FilterWithWildcards(job.jobID, q.jobID.s)
    case 1 => IsList(q.jobID) ==> AnyMatch(job.jobID, q.jobID.items)
    case 2 => IsStr(q.partition) && KnownPartitions(q.partition) ==> job.partition == q.partition.s
    case 3 => IsList(q.partition) && KnownPartitions(q.partition) ==> job.partition in q.partition.items
    case 4 => IsStr(q.user) ==> StartsWith(q.user.s, job.user)
    case 5 => IsStr(q.status) && KnownStatuses(q.status) ==> job.status == q.status.s
    case 6 => IsList(q.status) && KnownStatuses(q.status) ==> job.status in q.status.items
    case 7 => IsStr(q.title) ==> FilterWithWildcards(job.title, q.title.s)
    case 8 => IsList(q.title) ==> AnyMatch(job.title, q.title.items)
    case 9 => IsList(q.title) ==> AnyMatch(job.title, q.title.items)
    case _ => true
  }

  /** The first `n` filters together. */
  function KeepFirst(q: Query, n: nat): Job -> bool {
    (job: Job) => forall k :: 0 <= k < n ==> Keep(q, k, job)
  }

  /** The job passes every filter of the query. */
  predicate Selected(q: Query, job: Job) {
    forall k :: 0 <= k < 10 ==> Keep(q, k, job)
  }

  lemma Narrowed(jobs: seq<Job>, q: Query, k: nat, p: Job -> bool)
    requires forall job: Job :: Keep(q, k, job) == p(job)
    ensures Filter(Filter(jobs, KeepFirst(q, k)), p) == Filter(jobs, KeepFirst(q, k + 1))
  {
    forall job: Job ensures KeepFirst(q, k + 1)(job) == (KeepFirst(q, k)(job) && p(job)) { }
    FilterFilter(jobs, KeepFirst(q, k), p, KeepFirst(q, k + 1));
  }

  lemma Unchanged(jobs: seq<Job>, q: Query, k: nat)
    requires forall job: Job :: Keep(q, k, job)
    ensures Filter(jobs, KeepFirst(q, k)) == Filter(jobs, KeepFirst(q, k + 1))
  {
    forall i | 0 <= i < |jobs| ensures KeepFirst(q, k)(jobs[i]) == KeepFirst(q, k + 1)(jobs[i]) { }
    FilterExt(jobs, KeepFirst(q, k), KeepFirst(q, k + 1));
  }

  /**
   * The filtering part of `get_batchInfo` on the listed jobs: the jobs that pass
   * every applied filter, in their listing order.  The filters go by argument:
   * job id, partition, user, status, title.
   */
  method GetBatchInfo(listed: seq<Job>, q: Query) returns (jobs: seq<Job>)
    ensures jobs == Filter(listed, (job: Job) => Selected(q, job))
  {
    jobs := listed;
    FilterAll(listed, KeepFirst(q, 0));
    jobs := FilterByJobId(listed, q, jobs);
    jobs := FilterByPartition(listed, q, jobs);
    jobs := FilterByUser(listed, q, jobs);
    jobs := FilterByStatus(listed, q, jobs);
    jobs := FilterByTitle(listed, q, jobs);
    FilterExt(listed, KeepFirst(q, 10), (job: Job) => Selected(q, job));
  }

  /** Filters 0 and 1: the job id against one pattern or against a list of them. */
  method FilterByJobId(listed: seq<Job>, q: Query, jobs0: seq<Job>) returns (jobs: seq<Job>)
    requires jobs0 == Filter(listed, KeepFirst(q, 0))
    ensures jobs == Filter(listed, KeepFirst(q, 2))
  {
    jobs := jobs0;
    if IsStr(q.jobID) {
      Narrowed(listed, q, 0, (job: Job) => FilterWithWildcards(job.jobID, q.jobID.s));
      jobs := Filter(jobs, (job: Job) => FilterWithWildcards(job.jobID, q.jobID.s));
    } else {
      Unchanged(listed, q, 0);
    }
    if IsList(q.jobID) {
      Narrowed(listed, q, 1, (job: Job) => AnyMatch(job.jobID, q.jobID.items));
      jobs := Filter(jobs, (job: Job) => AnyMatch(job.jobID, q.jobID.items));
    } else {
      Unchanged(listed, q, 1);
    }
  }

  /** Filters 2 and 3: the partition, only when every value given is `c`, `m` or `g`. */
  method FilterByPartition(listed: seq<Job>, q: Query, jobs0: seq<Job>) returns (jobs: seq<Job>)
    requires jobs0 == Filter(listed, KeepFirst(q, 2))
    ensures jobs == Filter(listed, KeepFirst(q, 4))
  {
    jobs := jobs0;
    if IsStr(q.partition) && q.partition.s in ["c", "m", "g"] {
      Narrowed(listed, q, 2, (job: Job) => job.partition == q.partition.s);
      jobs := Filter(jobs, (job: Job) => job.partition == q.partition.s);
    } else {
      Unchanged(listed, q, 2);
    }
    if IsList(q.partition) && forall i :: 0 <= i < |q.partition.items| ==> q.partition.items[i] in ["c", "m", "g"] {
      Narrowed(listed, q, 3, (job: Job) => job.partition in q.partition.items);
      jobs := Filter(jobs, (job: Job) => job.partition in q.partition.items);
    } else {
      Unchanged(listed, q, 3);
    }
  }

  /** Filter 4: the given user must start with the job's user. */
  method FilterByUser(listed: seq<Job>, q: Query, jobs0: seq<Job>) returns (jobs: seq<Job>)
    requires jobs0 == Filter(listed, KeepFirst(q, 4))
    ensures jobs == Filter(listed, KeepFirst(q, 5))
  {
    jobs := jobs0;
    if IsStr(q.user) {
      Narrowed(listed, q, 4, (job: Job) => StartsWith(q.user.s, job.user));
      jobs := Filter(jobs, (job: Job) => StartsWith(q.user.s, job.user));
    } else {
      Unchanged(listed, q, 4);
    }
  }

  /** Filters 5 and 6: the status, only when every value given is `R`, `PD` or `CG`. */
  method FilterByStatus(listed: seq<Job>, q: Query, jobs0: seq<Job>) returns (jobs: seq<Job>)
    requires jobs0 == Filter(listed, KeepFirst(q, 5))
    ensures jobs == Filter(listed, KeepFirst(q, 7))
  {
    jobs := jobs0;
    if IsStr(q.status) && q.status.s in ["R", "PD", "CG"] {
      Narrowed(listed, q, 5, (job: Job) => job.status == q.status.s);
      jobs := Filter(jobs, (job: Job) => job.status == q.status.s);
    } else {
      Unchanged(listed, q, 5);
    }
    if IsList(q.status) && forall i :: 0 <= i < |q.status.items| ==> q.status.items[i] in ["R", "PD", "CG"] {
      Narrowed(listed, q, 6, (job: Job) => job.status in q.status.items);
      jobs := Filter(jobs, (job: Job) => job.status in q.status.items);
    } else {
      Unchanged(listed, q, 6);
    }
  }

  /** Filters 7 to 9: the title against one pattern, then twice against a list of them. */
  method FilterByTitle(listed: seq<Job>, q: Query, jobs0: seq<Job>) returns (jobs: seq<Job>)
    requires jobs0 == Filter(listed, KeepFirst(q, 7))
    ensures jobs == Filter(listed, KeepFirst(q, 10))
  {
    jobs := jobs0;
    if IsStr(q.title) {
      Narrowed(listed, q, 7, (job: Job) => FilterWithWildcards(job.title, q.title.s));
      jobs := Filter(jobs, (job: Job) => FilterWithWildcards(job.title, q.title.s));
    } else {
      Unchanged(listed, q, 7);
    }
    if IsList(q.title) {
      Narrowed(listed, q, 8, (job: Job) => AnyMatch(job.title, q.title.items));
      jobs := Filter(jobs, (job: Job) => AnyMatch(job.title, q.title.items));
    } else {
      Unchanged(listed, q, 8);
    }
    // the list filter on the title is applied a second time
    if IsList(q.title) {
      Narrowed(listed, q, 9, (job: Job) => AnyMatch(job.title, q.title.items));
      jobs := Filter(jobs, (job: Job) => AnyMatch(job.title, q.title.items));
    } else {
      Unchanged(listed, q, 9);
    }
  }

  /** The selected jobs are exactly the listed jobs that pass every filter. */
  lemma SelectedJobs(listed: seq<Job>, q: Query)
    ensures forall job :: job in Filter(listed, (job: Job) => Selected(q, job)) ==> job in listed && Selected(q, job)
    ensures forall job :: job in listed && Selected(q, job) ==> job in Filter(listed, (job: Job) => Selected(q, job))
  {
    FilterElements(listed, (job: Job) => Selected(q, job));
  }

  /** A partition outside `c`, `m`, `g` is ignored: the selection is as if none was given. */
  lemma UnknownPartitionIgnored(q: Query, job: Job)
    requires !KnownPartitions(q.partition)
    ensures Selected(q, job) == Selected(q.(partition := NoArg), job)
  {
    var q' := q.(partition := NoArg);
    assert forall k :: 0 <= k < 10 ==> Keep(q, k, job) == Keep(q', k, job);
  }

  /** A status outside `R`, `PD`, `CG` is ignored likewise. */
  lemma UnknownStatusIgnored(q: Query, job: Job)
    requires !KnownStatuses(q.status)
    ensures Selected(q, job) == Selected(q.(status := NoArg), job)
  {
    var q' := q.(status := NoArg);
    assert forall k :: 0 <= k < 10 ==> Keep(q, k, job) == Keep(q', k, job);
  }
}
