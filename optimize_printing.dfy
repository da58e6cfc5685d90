/**
 * `optimize_printing`: sort the jobs by priority, plan the batches, then
 * read off the print order and the total printing time.
 */
module PrintOptimizer {
  import opened PrintJobs
  import opened PrintGroups

  /** The dictionary `optimize_printing` returns (task_01.py:88-91). */
  datatype Schedule = Schedule(printOrder: seq<string>, totalTime: int)

  // ---------------------------------------------------------------------
  // `jobs.sort(key=lambda x: x.priority)`: a stable sort, ascending.

  ghost predicate SortedByPriority(s: seq<PrintJob>)
  {
    forall i, j :: 0 <= i < j < |s| ==> s[i].priority <= s[j].priority
  }

  /** Puts `x` after every job of `sorted` whose priority is at most its own. */
  function InsertByPriority(sorted: seq<PrintJob>, x: PrintJob): seq<PrintJob>
    decreases |sorted|
  {
    if sorted == [] || sorted[|sorted| - 1].priority <= x.priority then sorted + [x]
    else InsertByPriority(sorted[..|sorted| - 1], x) + [sorted[|sorted| - 1]]
  }

  /** The order `list.sort` leaves the jobs in: ascending priority, ties in input order. */
  function SortByPriority(jobs: seq<PrintJob>): seq<PrintJob>
  {
    if jobs == [] then []
    else InsertByPriority(SortByPriority(jobs[..|jobs| - 1]), jobs[|jobs| - 1])
  }

  /** The jobs of `s` that have priority `p`, in the order of `s`. */
  function WithPriority(s: seq<PrintJob>, p: int): seq<PrintJob>
  {
    if s == [] then []
    else WithPriority(s[..|s| - 1], p) + (if s[|s| - 1].priority == p then [s[|s| - 1]] else [])
  }

  lemma {:induction false} InsertMultiset(sorted: seq<PrintJob>, x: PrintJob)
    ensures multiset(InsertByPriority(sorted, x)) == multiset(sorted) + multiset{x}
    decreases |sorted|
  {
    if !(sorted == [] || sorted[|sorted| - 1].priority <= x.priority) {
      var init, last := sorted[..|sorted| - 1], sorted[|sorted| - 1];
      InsertMultiset(init, x);
      assert sorted == init + [last];
    }
  }

  lemma {:induction false} InsertSorted(sorted: seq<PrintJob>, x: PrintJob)
    requires SortedByPriority(sorted)
    ensures SortedByPriority(InsertByPriority(sorted, x))
    decreases |sorted|
  {
    if !(sorted == [] || sorted[|sorted| - 1].priority <= x.priority) {
      var init, last := sorted[..|sorted| - 1], sorted[|sorted| - 1];
      InsertSorted(init, x);
      InsertMultiset(init, x);
      var front := InsertByPriority(init, x);
      forall k | 0 <= k < |front| ensures front[k].priority <= last.priority {
        assert front[k] in multiset(init) + multiset{x};
        if front[k] != x {
          var t :| 0 <= t < |init| && init[t] == front[k];
          assert init[t] == sorted[t];
        }
      }
    }
  }

  /** Inserting `x` keeps the relative order of each priority class, with `x` last. */
  lemma {:induction false} InsertStable(sorted: seq<PrintJob>, x: PrintJob, p: int)
    ensures WithPriority(InsertByPriority(sorted, x), p)
         == WithPriority(sorted, p) + (if x.priority == p then [x] else [])
    decreases |sorted|
  {
    if sorted == [] || sorted[|sorted| - 1].priority <= x.priority {
      WithPriorityAppend(sorted, x, p);
    } else {
      var init, last := sorted[..|sorted| - 1], sorted[|sorted| - 1];
      var front := InsertByPriority(init, x);
      assert InsertByPriority(sorted, x) == front + [last];
      assert init + [last] == sorted;
      InsertStable(init, x, p);
      WithPriorityAppend(front, last, p);
      WithPriorityAppend(init, last, p);
      if x.priority == p {
        assert last.priority != p;
        assert WithPriority(front + [last], p) == WithPriority(init, p) + [x];
      } else {
        assert WithPriority(front, p) == WithPriority(init, p);
      }
    }
  }

  lemma WithPriorityAppend(s: seq<PrintJob>, y: PrintJob, p: int)
    ensures WithPriority(s + [y], p) == WithPriority(s, p) + (if y.priority == p then [y] else [])
  {
    assert (s + [y])[..|s|] == s;
  }

  /** The sorted jobs are in ascending priority order. */
  lemma {:induction false} SortSorted(jobs: seq<PrintJob>)
    ensures SortedByPriority(SortByPriority(jobs))
    decreases |jobs|
  {
    if jobs != [] {
      SortSorted(jobs[..|jobs| - 1]);
      InsertSorted(SortByPriority(jobs[..|jobs| - 1]), jobs[|jobs| - 1]);
    }
  }

  /** Sorting neither loses nor duplicates a job. */
  lemma {:induction false} SortPermutes(jobs: seq<PrintJob>)
    ensures multiset(SortByPriority(jobs)) == multiset(jobs)
    decreases |jobs|
  {
    if jobs != [] {
      var init, last := jobs[..|jobs| - 1], jobs[|jobs| - 1];
      SortPermutes(init);
      InsertMultiset(SortByPriority(init), last);
      assert jobs == init + [last];
    }
  }

  /** Jobs of equal priority keep their input order (the sort is stable). */
  lemma {:induction false} SortStable(jobs: seq<PrintJob>, p: int)
    ensures WithPriority(SortByPriority(jobs), p) == WithPriority(jobs, p)
    decreases |jobs|
  {
    if jobs != [] {
      var init, last := jobs[..|jobs| - 1], jobs[|jobs| - 1];
      SortStable(init, p);
      InsertStable(SortByPriority(init), last, p);
    }
  }

  // ---------------------------------------------------------------------
  // Reading the schedule off the groups.

  /** `job.id for job in jobs`. */
  function Ids(jobs: seq<PrintJob>): seq<string>
  {
    if jobs == [] then [] else [jobs[0].id] + Ids(jobs[1..])
  }

  /** `max(job.print_time for job in group)`; `max` of nothing raises, hence the precondition. */
  function MaxPrintTime(group: seq<PrintJob>): (m: int)
    requires group != []
    ensures exists k :: 0 <= k < |group| && m == group[k].printTime
    ensures forall k :: 0 <= k < |group| ==> group[k].printTime <= m
  {
    if |group| == 1 then group[0].printTime
    else
      var rest := MaxPrintTime(group[1..]);
      assert forall k :: 1 <= k < |group| ==> group[k] == group[1..][k - 1];
      if group[0].printTime >= rest then group[0].printTime else rest
  }

  ghost predicate NonEmptyGroups(groups: seq<seq<PrintJob>>)
  {
    forall k :: 0 <= k < |groups| ==> groups[k] != []
  }

  /** The sum over the groups of each group's longest print time. */
  function TotalTime(groups: seq<seq<PrintJob>>): int
    requires NonEmptyGroups(groups)
  {
    if groups == [] then 0 else MaxPrintTime(groups[0]) + TotalTime(groups[1..])
  }

  /** The sum of all print times: what printing one job at a time would take. */
  function SumTimes(jobs: seq<PrintJob>): int
  {
    if jobs == [] then 0 else jobs[0].printTime + SumTimes(jobs[1..])
  }

  ghost predicate NonNegativeTimes(jobs: seq<PrintJob>)
  {
    forall k :: 0 <= k < |jobs| ==> jobs[k].printTime >= 0
  }

  /** The planner's groups never include an empty one. */
  lemma PlanNonEmpty(pool: seq<PrintJob>, c: PrinterConstraints)
    ensures NonEmptyGroups(Plan(pool, c))
  {
    PlanGroupsOk(pool, c);
    forall k | 0 <= k < |Plan(pool, c)| ensures Plan(pool, c)[k] != [] {
      assert GroupOk(Plan(pool, c)[k], c);
    }
  }

  /** What `optimize_printing` returns for `jobs` (task_01.py:56-91). */
  function ScheduleOf(jobs: seq<PrintJob>, c: PrinterConstraints): Schedule
  {
    var groups := Plan(SortByPriority(jobs), c);
    PlanNonEmpty(SortByPriority(jobs), c);
    Schedule(Ids(Flatten(groups)), TotalTime(groups))
  }

  lemma {:induction false} IdsAppend(a: seq<PrintJob>, b: seq<PrintJob>)
    ensures Ids(a + b) == Ids(a) + Ids(b)
    decreases |a|
  {
    if a == [] {
      assert a + b == b;
    } else {
      assert (a + b)[1..] == a[1..] + b;
      IdsAppend(a[1..], b);
    }
  }

  lemma {:induction false} TotalTimeAppend(groups: seq<seq<PrintJob>>, group: seq<PrintJob>)
    requires NonEmptyGroups(groups) && group != []
    ensures NonEmptyGroups(groups + [group])
    ensures TotalTime(groups + [group]) == TotalTime(groups) + MaxPrintTime(group)
    decreases |groups|
  {
    var all := groups + [group];
    assert forall k :: 0 <= k < |all| ==> all[k] == if k < |groups| then groups[k] else group;
    if groups == [] {
      assert all[1..] == [];
    } else {
      assert all[1..] == groups[1..] + [group];
      TotalTimeAppend(groups[1..], group);
    }
  }

  /** Taking the first job off `a` and an equal one off `b` leaves equal multisets. */
  lemma DropMatching(a: seq<PrintJob>, b: seq<PrintJob>, k: nat)
    requires multiset(a) == multiset(b)
    requires a != [] && k < |b| && b[k] == a[0]
    ensures multiset(a[1..]) == multiset(b[..k] + b[k + 1..])
  {
    assert a == [a[0]] + a[1..];
    assert b == b[..k] + [b[k]] + b[k + 1..];
    var x := a[0];
    calc {
      multiset(a[1..]);
      (multiset(a[1..]) + multiset{x}) - multiset{x};
      multiset(a) - multiset{x};
      multiset(b) - multiset{x};
      (multiset(b[..k] + b[k + 1..]) + multiset{x}) - multiset{x};
      multiset(b[..k] + b[k + 1..]);
    }
  }

  /** The ids depend only on which jobs there are, not on their order. */
  lemma {:induction false} IdsPermutation(a: seq<PrintJob>, b: seq<PrintJob>)
    requires multiset(a) == multiset(b)
    ensures multiset(Ids(a)) == multiset(Ids(b))
    decreases |a|
  {
    if a == [] {
      assert |b| == |multiset(b)| == 0;
    } else {
      var x := a[0];
      assert x in multiset(b);
      var k :| 0 <= k < |b| && b[k] == x;
      var pre, post := b[..k], b[k + 1..];
      DropMatching(a, b, k);
      IdsPermutation(a[1..], pre + post);
      assert b == pre + ([x] + post);
      assert ([x] + post)[1..] == post;
      IdsAppend(pre, [x] + post);
      IdsAppend(pre, post);
    }
  }

  /** The sum of the print times depends only on which jobs there are, not on their order. */
  lemma {:induction false} SumTimesPermutation(a: seq<PrintJob>, b: seq<PrintJob>)
    requires multiset(a) == multiset(b)
    ensures SumTimes(a) == SumTimes(b)
    decreases |a|
  {
    if a == [] {
      assert |b| == |multiset(b)| == 0;
    } else {
      var x := a[0];
      assert x in multiset(b);
      var k :| 0 <= k < |b| && b[k] == x;
      var pre, post := b[..k], b[k + 1..];
      DropMatching(a, b, k);
      SumTimesPermutation(a[1..], pre + post);
      assert b == pre + ([x] + post);
      assert ([x] + post)[1..] == post;
      SumTimesAppend(pre, [x] + post);
      SumTimesAppend(pre, post);
    }
  }

  /** Each group's longest time is at most the group's summed time, for non-negative times. */
  lemma {:induction false} MaxAtMostSum(group: seq<PrintJob>)
    requires group != [] && NonNegativeTimes(group)
    ensures MaxPrintTime(group) <= SumTimes(group)
    decreases |group|
  {
    if |group| > 1 {
      MaxAtMostSum(group[1..]);
      SumNonNegative(group[1..]);
    }
  }

  lemma {:induction false} SumNonNegative(jobs: seq<PrintJob>)
    requires NonNegativeTimes(jobs)
    ensures SumTimes(jobs) >= 0
    decreases |jobs|
  {
    if jobs != [] {
      SumNonNegative(jobs[1..]);
    }
  }

  lemma {:induction false} SumTimesAppend(a: seq<PrintJob>, b: seq<PrintJob>)
    ensures SumTimes(a + b) == SumTimes(a) + SumTimes(b)
    decreases |a|
  {
    if a == [] {
      assert a + b == b;
    } else {
      assert (a + b)[1..] == a[1..] + b;
      SumTimesAppend(a[1..], b);
    }
  }

  /** Running groups side by side never takes longer than running their jobs one by one. */
  lemma {:induction false} TotalAtMostSum(groups: seq<seq<PrintJob>>)
    requires NonEmptyGroups(groups) && NonNegativeTimes(Flatten(groups))
    ensures TotalTime(groups) <= SumTimes(Flatten(groups))
    decreases |groups|
  {
    if groups != [] {
      var g := groups[0];
      assert Flatten(groups) == g + Flatten(groups[1..]);
      assert forall k :: 0 <= k < |g| ==> g[k] == Flatten(groups)[k];
      var tail := Flatten(groups[1..]);
      assert forall k :: 0 <= k < |tail| ==> tail[k] == Flatten(groups)[|g| + k];
      TotalAtMostSum(groups[1..]);
      MaxAtMostSum(g);
      SumTimesAppend(g, tail);
    }
  }

  /** No group's longest time exceeds the total, for non-negative times. */
  lemma {:induction false} TotalAtLeastGroup(groups: seq<seq<PrintJob>>, k: nat)
    requires NonEmptyGroups(groups) && k < |groups|
    requires forall t :: 0 <= t < |groups| ==> NonNegativeTimes(groups[t])
    ensures MaxPrintTime(groups[k]) <= TotalTime(groups)
    decreases |groups|
  {
    if k > 0 {
      TotalAtLeastGroup(groups[1..], k - 1);
      assert NonNegativeTimes(groups[0]);
    } else {
      TotalNonNegative(groups[1..]);
    }
  }

  lemma {:induction false} TotalNonNegative(groups: seq<seq<PrintJob>>)
    requires NonEmptyGroups(groups)
    requires forall t :: 0 <= t < |groups| ==> NonNegativeTimes(groups[t])
    ensures TotalTime(groups) >= 0
    decreases |groups|
  {
    if groups != [] {
      TotalNonNegative(groups[1..]);
      assert NonNegativeTimes(groups[0]);
      assert groups[0][0].printTime >= 0;
    }
  }

  // ---------------------------------------------------------------------
  // What the schedule promises.

  /** The print order names every input job exactly as often as it occurs. */
  lemma PrintOrderIsPermutation(jobs: seq<PrintJob>, c: PrinterConstraints)
    ensures multiset(ScheduleOf(jobs, c).printOrder) == multiset(Ids(jobs))
  {
    var sorted := SortByPriority(jobs);
    SortPermutes(jobs);
    PlanPartition(sorted, c);
    IdsPermutation(Flatten(Plan(sorted, c)), jobs);
  }

  /** No jobs, no batches: an empty order and no time. */
  lemma EmptySchedule(c: PrinterConstraints)
    ensures ScheduleOf([], c) == Schedule([], 0)
  {
  }

  lemma MemberNonNegative(jobs: seq<PrintJob>, x: PrintJob)
    requires NonNegativeTimes(jobs) && x in jobs
    ensures x.printTime >= 0
  {
    var k :| 0 <= k < |jobs| && jobs[k] == x;
  }

  /** Every job of every group comes from `jobs`, so its print time is non-negative too. */
  lemma GroupsNonNegative(groups: seq<seq<PrintJob>>, jobs: seq<PrintJob>)
    requires multiset(Flatten(groups)) == multiset(jobs)
    requires NonNegativeTimes(jobs)
    ensures NonNegativeTimes(Flatten(groups))
    ensures forall t :: 0 <= t < |groups| ==> NonNegativeTimes(groups[t])
  {
    var flat := Flatten(groups);
    forall t | 0 <= t < |flat| ensures flat[t].printTime >= 0 {
      assert flat[t] in multiset(jobs);
      MemberNonNegative(jobs, flat[t]);
    }
    forall t, i | 0 <= t < |groups| && 0 <= i < |groups[t]| ensures groups[t][i].printTime >= 0 {
      InFlattenAt(groups, t, i);
      assert groups[t][i] in multiset(jobs);
      MemberNonNegative(jobs, groups[t][i]);
    }
  }

  /** A job printed in one of the groups takes no longer than all the groups together. */
  lemma JobWithinTotal(groups: seq<seq<PrintJob>>, x: PrintJob)
    requires NonEmptyGroups(groups)
    requires forall t :: 0 <= t < |groups| ==> NonNegativeTimes(groups[t])
    requires x in Flatten(groups)
    ensures x.printTime <= TotalTime(groups)
  {
    InFlatten(groups, x);
    var g :| g in groups && x in g;
    var t :| 0 <= t < |groups| && groups[t] == g;
    TotalAtLeastGroup(groups, t);
  }

  /**
   * For any split of `jobs` into non-empty groups, with non-negative print
   * times, the total lies between the longest single print time and the
   * time to print every job on its own.
   */
  lemma GroupsTimeBounds(groups: seq<seq<PrintJob>>, jobs: seq<PrintJob>)
    requires NonEmptyGroups(groups)
    requires multiset(Flatten(groups)) == multiset(jobs)
    requires NonNegativeTimes(jobs)
    ensures TotalTime(groups) <= SumTimes(jobs)
    ensures forall k :: 0 <= k < |jobs| ==> jobs[k].printTime <= TotalTime(groups)
  {
    SumTimesPermutation(Flatten(groups), jobs);
    GroupsNonNegative(groups, jobs);
    TotalAtMostSum(groups);
    forall k | 0 <= k < |jobs| ensures jobs[k].printTime <= TotalTime(groups) {
      assert jobs[k] in multiset(Flatten(groups));
      JobWithinTotal(groups, jobs[k]);
    }
  }

  /** The same bounds for the schedule `optimize_printing` returns. */
  lemma TotalTimeBounds(jobs: seq<PrintJob>, c: PrinterConstraints)
    requires NonNegativeTimes(jobs)
    ensures ScheduleOf(jobs, c).totalTime <= SumTimes(jobs)
    ensures forall k :: 0 <= k < |jobs| ==> jobs[k].printTime <= ScheduleOf(jobs, c).totalTime
  {
    var sorted := SortByPriority(jobs);
    SortPermutes(jobs);
    PlanPartition(sorted, c);
    PlanNonEmpty(sorted, c);
    GroupsTimeBounds(Plan(sorted, c), jobs);
  }

  /** The loop at task_01.py:78-86: ids group after group, and each group's longest time summed. */
  method Summarize(groups: seq<seq<PrintJob>>) returns (printOrder: seq<string>, totalTime: int)
    requires NonEmptyGroups(groups)
    ensures printOrder == Ids(Flatten(groups))
    ensures totalTime == TotalTime(groups)
  {
    printOrder := [];
    totalTime := 0;
    for k := 0 to |groups|
      invariant printOrder == Ids(Flatten(groups[..k]))
      invariant totalTime == TotalTime(groups[..k])
    {
      var group := groups[k];
      assert groups[..k + 1] == groups[..k] + [group];
      FlattenAppend(groups[..k], [group]);
      assert Flatten([group]) == group;
      IdsAppend(Flatten(groups[..k]), group);
      TotalTimeAppend(groups[..k], group);
      printOrder := printOrder + Ids(group);
      var groupTime := MaxPrintTime(group);
      totalTime := totalTime + groupTime;
    }
    assert groups[..|groups|] == groups;
  }

  /** `optimize_printing` (task_01.py:56-91), on typed records. */
  method OptimizePrinting(jobs: seq<PrintJob>, c: PrinterConstraints) returns (result: Schedule)
    ensures result == ScheduleOf(jobs, c)
    ensures multiset(result.printOrder) == multiset(Ids(jobs))
  {
    var sorted := SortByPriority(jobs);
    var groups := CreatePrintGroups(sorted, c);
    PlanNonEmpty(sorted, c);
    var printOrder, totalTime := Summarize(groups);
    result := Schedule(printOrder, totalTime);
    PrintOrderIsPermutation(jobs, c);
  }
}
