/**
 * The three demonstration inputs of task_01.py:95-118, with the printer
 * limited to volume 300 and two models per batch, worked through the model,
 * plus a job too large for the printer.
 */
module Scenarios {
  import opened PrintJobs
  import opened Combinations
  import opened PrintGroups
  import opened PrintOptimizer

  /** The constraints of task_01.py:114-117. */
  function Printer(): PrinterConstraints
  {
    PrinterConstraints(300.0, 2)
  }

  lemma PrependOne(x: nat)
    ensures Prepend(x, []) == []
    ensures Prepend(x, [[]]) == [[x]]
    ensures forall y :: Prepend(x, [[y]]) == [[x, y]]
    ensures forall y, z :: Prepend(x, [[y], [z]]) == [[x, y], [x, z]]
  {
    assert Prepend(x, [[]])[0] == [x];
    forall y ensures Prepend(x, [[y]]) == [[x, y]] {
      assert Prepend(x, [[y]])[0] == [x, y];
    }
    forall y, z ensures Prepend(x, [[y], [z]]) == [[x, y], [x, z]] {
      assert Prepend(x, [[y], [z]])[0] == [x, y];
      assert Prepend(x, [[y], [z]])[1] == [x, z];
    }
  }

  lemma CombosOfTwo()
    ensures Combos(2, 1) == [[0], [1]]
    ensures Combos(2, 2) == [[0, 1]]
  {
    PrependOne(0);
    PrependOne(1);
    assert CombosFrom(2, 2, 1) == [] && CombosFrom(2, 2, 2) == [];
    assert CombosFrom(1, 2, 1) == [[1]];
    assert CombosFrom(1, 2, 2) == [];
  }

  lemma CombosOfThree()
    ensures Combos(3, 1) == [[0], [1], [2]]
    ensures Combos(3, 2) == [[0, 1], [0, 2], [1, 2]]
  {
    PrependOne(0);
    PrependOne(1);
    PrependOne(2);
    assert CombosFrom(3, 3, 1) == [] && CombosFrom(3, 3, 2) == [];
    assert CombosFrom(2, 3, 1) == [[2]];
    assert CombosFrom(2, 3, 2) == [];
    assert CombosFrom(1, 3, 1) == [[1], [2]];
    assert CombosFrom(1, 3, 2) == [[1, 2]];
  }

  /** A single job is always printed alone: chosen when it fits, the fallback otherwise. */
  lemma SingleJobRound(j: PrintJob, c: PrinterConstraints)
    ensures Round([j], c) == ([j], [])
  {
    var current := Candidate([j], c);
    if current != [] {
      assert multiset(current) <= multiset([j]);
      assert |multiset(current)| == |current| >= 1;
      assert current[0] in multiset([j]);
      assert |multiset(current)| <= |multiset([j])| == 1;
      assert current == [j];
      assert RemoveFirst([j], j) == [];
    }
  }

  /** The three jobs of Test 1 (task_01.py:97-99): all of priority 1. */
  function SamePriorityJobs(): seq<PrintJob>
  {
    [PrintJob("M1", 100.0, 1, 120), PrintJob("M2", 150.0, 1, 90), PrintJob("M3", 120.0, 1, 150)]
  }

  /** The three jobs of Test 2 (task_01.py:104-106): priorities 2, 1 and 3. */
  function MixedPriorityJobs(): seq<PrintJob>
  {
    [PrintJob("M1", 100.0, 2, 120), PrintJob("M2", 150.0, 1, 90), PrintJob("M3", 120.0, 3, 150)]
  }

  /** The three jobs of Test 3 (task_01.py:111-113): no two fit together. */
  function BulkyJobs(): seq<PrintJob>
  {
    [PrintJob("M1", 250.0, 1, 180), PrintJob("M2", 200.0, 1, 150), PrintJob("M3", 180.0, 2, 120)]
  }

  lemma SortInOrder(a: PrintJob, b: PrintJob, x: PrintJob)
    requires a.priority <= b.priority <= x.priority
    ensures SortByPriority([a, b, x]) == [a, b, x]
  {
    assert [a, b, x][..2] == [a, b] && [a, b][..1] == [a];
    assert SortByPriority([a]) == [a];
    assert SortByPriority([a, b]) == [a, b];
  }

  lemma SortSecondFirst(a: PrintJob, b: PrintJob, x: PrintJob)
    requires b.priority < a.priority <= x.priority
    ensures SortByPriority([a, b, x]) == [b, a, x]
  {
    assert [a, b, x][..2] == [a, b] && [a, b][..1] == [a];
    assert SortByPriority([a]) == [a];
    assert InsertByPriority([a], b) == [b, a];
    assert SortByPriority([a, b]) == [b, a];
  }

  lemma VolumeOfTwo(a: PrintJob, b: PrintJob)
    ensures Volume([a, b]) == a.volume + b.volume
  {
    assert [a, b][1..] == [b];
    assert [b][1..] == [];
    assert Volume([b]) == b.volume + Volume([]);
    assert Volume([a, b]) == a.volume + Volume([b]);
  }

  lemma FlattenSmall(g: seq<PrintJob>, h: seq<PrintJob>, k: seq<PrintJob>)
    ensures Flatten([g, h]) == g + h
    ensures Flatten([g, h, k]) == g + h + k
  {
    assert [g, h][1..] == [h] && [h][1..] == [] && [h, k][1..] == [k] && [k][1..] == [];
    assert Flatten([h]) == h + Flatten([]);
    assert Flatten([k]) == k + Flatten([]);
    assert Flatten([h, k]) == h + Flatten([k]);
    assert Flatten([g, h]) == g + Flatten([h]);
    assert Flatten([g, h, k]) == g + Flatten([h, k]);
  }

  /** The pair at positions `i` and `j` fits exactly when their two volumes do. */
  lemma PairFits(pool: seq<PrintJob>, maxVolume: real, i: nat, j: nat)
    requires i < j < |pool|
    ensures IsComboFrom([i, j], 0, |pool|)
    ensures Fits(pool, [i, j], maxVolume) <==> pool[i].volume + pool[j].volume <= maxVolume
  {
    assert [i, j][1..] == [j] && [j][1..] == [];
    assert Pick(pool, [i, j]) == [pool[i], pool[j]];
    VolumeOfTwo(pool[i], pool[j]);
  }

  lemma MaxOfTwo(a: PrintJob, b: PrintJob)
    ensures MaxPrintTime([a, b]) == if a.printTime >= b.printTime then a.printTime else b.printTime
  {
    assert [a, b][1..] == [b];
  }

  lemma IdsOfThree(a: PrintJob, b: PrintJob, x: PrintJob)
    ensures Ids([a, b, x]) == [a.id, b.id, x.id]
  {
    assert [a, b, x][1..] == [b, x] && [b, x][1..] == [x] && [x][1..] == [];
    assert Ids([x]) == [x.id] + Ids([]);
    assert Ids([b, x]) == [b.id] + Ids([x]);
  }

  lemma TotalOfPairAndOne(g: seq<PrintJob>, x: PrintJob)
    requires g != []
    ensures NonEmptyGroups([g, [x]])
    ensures TotalTime([g, [x]]) == MaxPrintTime(g) + x.printTime
  {
    assert [g, [x]][1..] == [[x]] && [[x]][1..] == [];
    assert TotalTime([[x]]) == MaxPrintTime([x]) + TotalTime([]);
  }

  lemma TotalOfThreeSingles(a: PrintJob, b: PrintJob, x: PrintJob)
    ensures NonEmptyGroups([[a], [b], [x]])
    ensures TotalTime([[a], [b], [x]]) == a.printTime + b.printTime + x.printTime
  {
    assert [[a], [b], [x]][1..] == [[b], [x]] && [[b], [x]][1..] == [[x]] && [[x]][1..] == [];
    assert TotalTime([[x]]) == MaxPrintTime([x]) + TotalTime([]);
    assert TotalTime([[b], [x]]) == MaxPrintTime([b]) + TotalTime([[x]]);
  }

  /** The schedule, read off the planner's groups for the sorted jobs. */
  lemma ScheduleFromGroups(jobs: seq<PrintJob>, c: PrinterConstraints, groups: seq<seq<PrintJob>>,
                            order: seq<string>, total: int)
    requires Plan(SortByPriority(jobs), c) == groups
    requires NonEmptyGroups(groups) && Ids(Flatten(groups)) == order && TotalTime(groups) == total
    ensures ScheduleOf(jobs, c) == Schedule(order, total)
  {
  }

  /** Order and time for a pair batch followed by a lone job. */
  lemma PairThenOne(a: PrintJob, b: PrintJob, x: PrintJob)
    ensures NonEmptyGroups([[a, b], [x]])
    ensures Ids(Flatten([[a, b], [x]])) == [a.id, b.id, x.id]
    ensures TotalTime([[a, b], [x]]) == (if a.printTime >= b.printTime then a.printTime else b.printTime) + x.printTime
  {
    FlattenSmall([a, b], [x], []);
    assert Flatten([[a, b], [x]]) == [a, b, x];
    IdsOfThree(a, b, x);
    MaxOfTwo(a, b);
    TotalOfPairAndOne([a, b], x);
  }

  /** Order and time for three lone jobs. */
  lemma ThreeAlone(a: PrintJob, b: PrintJob, x: PrintJob)
    ensures NonEmptyGroups([[a], [b], [x]])
    ensures Ids(Flatten([[a], [b], [x]])) == [a.id, b.id, x.id]
    ensures TotalTime([[a], [b], [x]]) == a.printTime + b.printTime + x.printTime
  {
    FlattenSmall([a], [b], [x]);
    assert Flatten([[a], [b], [x]]) == [a, b, x];
    IdsOfThree(a, b, x);
    TotalOfThreeSingles(a, b, x);
  }

  /** Test 1, first round: the first pair, M1 and M2, weighs 250 and fits. */
  lemma SamePriorityFirstRound()
    ensures var jobs := SamePriorityJobs(); Round(jobs, Printer()) == ([jobs[0], jobs[1]], [jobs[2]])
  {
    var jobs := SamePriorityJobs();
    CombosOfThree();
    assert Pick(jobs, [0, 1]) == [jobs[0], jobs[1]];
    VolumeOfTwo(jobs[0], jobs[1]);
    assert FirstFitFrom(jobs, 300.0, Combos(3, 2), 0) == Some(0);
    assert Candidate(jobs, Printer()) == [jobs[0], jobs[1]];
    assert RemoveAll(jobs, [jobs[0], jobs[1]]) == [jobs[2]];
  }

  /** Test 1: M1 and M2 share the first batch, M3 prints alone. */
  lemma SamePriorityPlan()
    ensures var jobs := SamePriorityJobs();
      Plan(SortByPriority(jobs), Printer()) == [[jobs[0], jobs[1]], [jobs[2]]]
  {
    var jobs := SamePriorityJobs();
    SortInOrder(jobs[0], jobs[1], jobs[2]);
    SamePriorityFirstRound();
    SingleJobRound(jobs[2], Printer());
    PlanStep(jobs, Printer());
    PlanStep([jobs[2]], Printer());
  }

  /** Test 1 (task_01.py:120-123): print order M1, M2, M3 in 270 minutes. */
  lemma SamePriority()
    ensures ScheduleOf(SamePriorityJobs(), Printer()) == Schedule(["M1", "M2", "M3"], 270)
  {
    var jobs := SamePriorityJobs();
    var groups := [[jobs[0], jobs[1]], [jobs[2]]];
    SamePriorityPlan();
    PairThenOne(jobs[0], jobs[1], jobs[2]);
    ScheduleFromGroups(jobs, Printer(), groups, ["M1", "M2", "M3"], 270);
  }

  /** Test 2, first round on the sorted jobs: M2 and M1 weigh 250 together and fit. */
  lemma MixedPriorityFirstRound()
    ensures var jobs := MixedPriorityJobs(); var sorted := [jobs[1], jobs[0], jobs[2]];
      Round(sorted, Printer()) == ([jobs[1], jobs[0]], [jobs[2]])
  {
    var jobs := MixedPriorityJobs();
    var sorted := [jobs[1], jobs[0], jobs[2]];
    CombosOfThree();
    assert Pick(sorted, [0, 1]) == [jobs[1], jobs[0]];
    VolumeOfTwo(jobs[1], jobs[0]);
    assert FirstFitFrom(sorted, 300.0, Combos(3, 2), 0) == Some(0);
    assert Candidate(sorted, Printer()) == [jobs[1], jobs[0]];
    assert RemoveFirst(sorted, jobs[1]) == [jobs[0], jobs[2]];
    assert [jobs[1], jobs[0]][1..] == [jobs[0]];
    assert RemoveFirst([jobs[0], jobs[2]], jobs[0]) == [jobs[2]];
    assert RemoveAll(sorted, [jobs[1], jobs[0]]) == RemoveAll([jobs[0], jobs[2]], [jobs[0]]);
    assert RemoveAll([jobs[0], jobs[2]], [jobs[0]]) == RemoveAll([jobs[2]], []);
    assert RemoveAll(sorted, [jobs[1], jobs[0]]) == [jobs[2]];
  }

  /** Test 2: sorting puts M2 (priority 1) first; M2 and M1 share a batch, M3 prints alone. */
  lemma MixedPriorityPlan()
    ensures var jobs := MixedPriorityJobs();
      && SortByPriority(jobs) == [jobs[1], jobs[0], jobs[2]]
      && Plan(SortByPriority(jobs), Printer()) == [[jobs[1], jobs[0]], [jobs[2]]]
  {
    var jobs := MixedPriorityJobs();
    var sorted := [jobs[1], jobs[0], jobs[2]];
    SortSecondFirst(jobs[0], jobs[1], jobs[2]);
    MixedPriorityFirstRound();
    SingleJobRound(jobs[2], Printer());
    PlanStep(sorted, Printer());
    PlanStep([jobs[2]], Printer());
  }

  /** Test 2 (task_01.py:125-128): print order M2, M1, M3 in 270 minutes. */
  lemma MixedPriority()
    ensures ScheduleOf(MixedPriorityJobs(), Printer()) == Schedule(["M2", "M1", "M3"], 270)
  {
    var jobs := MixedPriorityJobs();
    var groups := [[jobs[1], jobs[0]], [jobs[2]]];
    MixedPriorityPlan();
    PairThenOne(jobs[1], jobs[0], jobs[2]);
    ScheduleFromGroups(jobs, Printer(), groups, ["M2", "M1", "M3"], 270);
  }

  /** Test 3: no pair of the three fits (450, 430 and 380 are all over 300). */
  lemma BulkyNoPair()
    ensures FitAtSize(BulkyJobs(), 300.0, 2) == None
  {
    var jobs := BulkyJobs();
    CombosOfThree();
    PairFits(jobs, 300.0, 0, 1);
    PairFits(jobs, 300.0, 0, 2);
    PairFits(jobs, 300.0, 1, 2);
    assert FirstFitFrom(jobs, 300.0, Combos(3, 2), 3) == None;
    assert FirstFitFrom(jobs, 300.0, Combos(3, 2), 0) == None;
  }

  /** Test 3, first round: with no pair fitting, M1 alone is the first fit of size one. */
  lemma BulkyFirstRound()
    ensures var jobs := BulkyJobs(); Round(jobs, Printer()) == ([jobs[0]], jobs[1..])
  {
    var jobs := BulkyJobs();
    BulkyNoPair();
    CombosOfThree();
    SingleFits(jobs, 300.0, 0);
    assert FirstFitFrom(jobs, 300.0, Combos(3, 1), 0) == Some(0);
    assert Choice(jobs, Printer()) == Some([0]);
    assert Pick(jobs, [0]) == [jobs[0]];
    assert Candidate(jobs, Printer()) == [jobs[0]];
    assert RemoveAll(jobs, [jobs[0]]) == jobs[1..];
  }

  /** Test 3, second round: M2 and M3 weigh 380 together, so M2 goes alone. */
  lemma BulkySecondRound()
    ensures var jobs := BulkyJobs(); Round(jobs[1..], Printer()) == ([jobs[1]], [jobs[2]])
  {
    var jobs := BulkyJobs();
    var pool := jobs[1..];
    assert pool == [jobs[1], jobs[2]];
    CombosOfTwo();
    PairFits(pool, 300.0, 0, 1);
    assert FirstFitFrom(pool, 300.0, Combos(2, 2), 0) == None;
    assert FitAtSize(pool, 300.0, 2) == None;
    SingleFits(pool, 300.0, 0);
    assert FirstFitFrom(pool, 300.0, Combos(2, 1), 0) == Some(0);
    assert Choice(pool, Printer()) == Some([0]);
    assert Pick(pool, [0]) == [jobs[1]];
    assert Candidate(pool, Printer()) == [jobs[1]];
    assert RemoveAll(pool, [jobs[1]]) == [jobs[2]];
  }

  /** Test 3: every job prints in a batch of its own. */
  lemma BulkyPlan()
    ensures var jobs := BulkyJobs();
      Plan(SortByPriority(jobs), Printer()) == [[jobs[0]], [jobs[1]], [jobs[2]]]
  {
    var jobs := BulkyJobs();
    SortInOrder(jobs[0], jobs[1], jobs[2]);
    BulkyFirstRound();
    BulkySecondRound();
    SingleJobRound(jobs[2], Printer());
    PlanStep(jobs, Printer());
    PlanStep(jobs[1..], Printer());
    PlanStep([jobs[2]], Printer());
  }

  /** Test 3 (task_01.py:130-133): print order M1, M2, M3 in 450 minutes. */
  lemma Bulky()
    ensures ScheduleOf(BulkyJobs(), Printer()) == Schedule(["M1", "M2", "M3"], 450)
  {
    var jobs := BulkyJobs();
    var groups := [[jobs[0]], [jobs[1]], [jobs[2]]];
    BulkyPlan();
    ThreeAlone(jobs[0], jobs[1], jobs[2]);
    ScheduleFromGroups(jobs, Printer(), groups, ["M1", "M2", "M3"], 450);
  }

  /** Two jobs each too large for the printer: the fallback prints them one by one, in order. */
  lemma NothingFitsFallback()
    ensures var x := PrintJob("X", 400.0, 1, 60); var y := PrintJob("Y", 350.0, 1, 30);
      Plan([x, y], Printer()) == [[x], [y]]
  {
    var x := PrintJob("X", 400.0, 1, 60);
    var y := PrintJob("Y", 350.0, 1, 30);
    FallbackOnlyWhenAllTooLarge([x, y], Printer());
    assert Candidate([x, y], Printer()) == [];
    assert Round([x, y], Printer()) == ([x], [y]);
    SingleJobRound(y, Printer());
    PlanStep([x, y], Printer());
    PlanStep([y], Printer());
  }
}
