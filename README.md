# 3D-print batch planner

A model of the print-queue optimiser in `task_01.py`. It has two parts.

The first is `create_print_groups`, a greedy batch planner. Each round:

- It looks for the largest group of remaining jobs whose summed volume fits the printer's `max_volume`. Group sizes go from `min(len(remaining), max_items)` down to 1.
- At each size, it takes the first fitting combination in `itertools.combinations` order. That order is lexicographic over index positions.
- The chosen jobs are removed from the remaining list with `list.remove`.
- When nothing fits, the first remaining job is printed alone.

The second is `optimize_printing`:

- It stable-sorts the jobs by ascending priority.
- It plans the batches.
- It reports the ids batch after batch, and a total time. The total is the sum over batches of each batch's longest print time.

Modules:

- `PrintJobs` (`jobs.dfy`): the two records, a group's summed volume, and the concatenation of groups.
- `Combinations` (`combinations.dfy`): the `combinations` enumeration as index tuples. It proves the enumeration sound, complete and in lexicographic order.
- `PrintGroups` (`print_groups.dfy`): the planner.
  - Specification functions: `Choice` for the search of one round, `Round` for one round, and `Plan` for all rounds.
  - Imperative methods: `FirstFitting`, `FindGroup`, `RemoveGroup` and `CreatePrintGroups`. They carry the source's loops and are proved equal to those functions.
  - Lemmas: the greedy choice stated declaratively, the partition, group limits and the fallback.
- `PrintOptimizer` (`optimize_printing.dfy`): the stable sort, the aggregation loop `Summarize`, and `OptimizePrinting`. It also proves the permutation and time-bound properties of the schedule.
- `Scenarios` (`scenarios.dfy`): the three demo inputs of `test_printing_optimization`, worked through the model to their print orders and total times. There is also one input on which the fallback fires.

Volumes are exact `real`s. Print times and priorities are `int`s.

## Model

| member | source | states |
|---|---|---|
| PrintGroups.CreatePrintGroups | task_01.py:17-54 | The loop returns exactly the planner's groups `Plan(jobs, c)`. No jobs give no groups. The groups' concatenation is a permutation of the input jobs. Every group is within both limits, or is a lone job that the limits forced out. |
| PrintGroups.FindGroup | task_01.py:32-42 | The nested size/combination search yields `Candidate`: the jobs of the combination `Choice` selects, or `[]` when none fits. |
| PrintGroups.FirstFitting | task_01.py:35-40 | At one size, the inner loop yields the jobs of the first fitting combination in enumeration order. It yields `[]` exactly when none fits. |
| PrintGroups.RemoveGroup | task_01.py:47-48 | Removing each chosen job in turn with `list.remove` equals `RemoveAll`. Every removed job is still present when removed, so `remove` never fails. |
| PrintGroups.Round | task_01.py:31-52 | Each round strictly shrinks the remaining jobs, so the `while` loop terminates. |
| PrintGroups.RoundPartition | task_01.py:44-52 | One round splits the pool into the emitted group and the remaining jobs, as multisets. |
| PrintGroups.PlanAdvance | task_01.py:45-52 | Appending one round's group keeps "groups so far + plan of the rest" equal to the whole plan. This is the loop invariant of `create_print_groups`. |
| PrintGroups.Candidate | task_01.py:32-42 | The search result is non-empty exactly when some combination fits. It is a sub-multiset of the remaining jobs. |
| PrintGroups.PickSubMultiset | task_01.py:39 | `list(combo)` of a strictly increasing index tuple takes each remaining job at most once. |
| PrintGroups.FirstFitFrom | task_01.py:35-40 | The position found is a fitting combination, and every earlier combination fails. `None` means none from the start position fits. |
| PrintGroups.FitAtSize | task_01.py:35-40 | A combination found at a size has that size, has increasing in-range positions, and fits. |
| PrintGroups.Search | task_01.py:34-42 | A combination found by the size loop has between 1 and the starting size jobs, and fits. |
| PrintGroups.FitAtSizeNone | task_01.py:35-40 | The search at one size comes up empty if and only if no combination of that size fits. |
| PrintGroups.FitAtSizeFirst | task_01.py:35-40 | At one size the search returns the lexicographically first fitting combination. |
| PrintGroups.SearchNone | task_01.py:34-42 | The size loop gives up if and only if no size from 1 to the bound has a fitting combination. |
| PrintGroups.SearchSome | task_01.py:34-42 | A found combination has maximal size among fitting ones. It is also first in lexicographic order among fitting combinations of its size. |
| PrintGroups.ChoiceNone | task_01.py:34-42 | A round finds no group if and only if no combination of any size from 1 to `min(len, max_items)` fits. |
| PrintGroups.ChoiceIsGreedy | task_01.py:34-42 | A round chooses a combination if and only if that combination is the greedy one: it fits, no larger size fits, and it is lexicographically first at its size. |
| PrintGroups.SingleFits | task_01.py:36-38 | A one-job combination fits exactly when that job's own volume is within `max_volume`. |
| PrintGroups.FallbackOnlyWhenAllTooLarge | task_01.py:34-52 | With `max_items >= 1`, the fallback fires only when every remaining job alone exceeds `max_volume`. With non-negative volumes, it always fires then. |
| PrintGroups.CandidateOk | task_01.py:34-45 | A found group has between 1 and `max_items` jobs and volume within `max_volume`. |
| PrintGroups.FallbackOk | task_01.py:34-52 | When the search finds nothing, `remaining_jobs[0]` is over `max_volume`, or the item limit is not positive. |
| PrintGroups.PlanPartition | task_01.py:28-54 | The concatenated groups are a permutation of the input jobs. |
| PrintGroups.PlanGroupsOk | task_01.py:28-54 | Every group is non-empty and within both limits, or is a single fallback job. |
| PrintGroups.OversizedJobAlone | task_01.py:34-52 | With non-negative volumes, a job over `max_volume` always prints alone. |
| PrintGroups.PlanWithoutItemLimit | task_01.py:34-52 | With `max_items <= 0` the size range is empty, so every job prints alone, in input order. |
| PrintGroups.IndexOf | task_01.py:48 | The position found holds the job searched for. |
| PrintGroups.IndexOfIsFirst | task_01.py:48 | No earlier position holds an equal job. |
| PrintGroups.RemoveFirstDeletesFirst | task_01.py:48 | `list.remove(x)` deletes exactly the first equal job. The list loses one element and one copy of `x`. |
| PrintGroups.RemoveAllMultiset | task_01.py:47-48 | Removing a group drawn from the list leaves exactly the other jobs, as a multiset, and shortens the list by the group's length. |
| Combinations.CombosFromSound | task_01.py:35 | Every enumerated tuple has `k` strictly increasing positions in range. |
| Combinations.CombosComplete | task_01.py:35 | Every strictly increasing `k`-tuple of positions is enumerated. |
| Combinations.CombosFromSorted | task_01.py:35 | The enumeration is strictly increasing in lexicographic order, so it repeats nothing and matches `combinations` order. |
| Combinations.LexLessAsymmetric | task_01.py:35 | The enumeration order is asymmetric. |
| PrintJobs.VolumeAtLeastMember | task_01.py:36 | With non-negative volumes, a group's summed volume is at least any one job's volume. |
| PrintJobs.FlattenAppend | task_01.py:81-83 | Concatenating groups distributes over appending groups. |
| PrintJobs.InFlatten | task_01.py:81-83 | A job is in the concatenation if and only if it is in some group. |
| PrintOptimizer.SortSorted | task_01.py:72 | The sorted jobs are in ascending priority. |
| PrintOptimizer.SortPermutes | task_01.py:72 | Sorting is a permutation of the jobs. |
| PrintOptimizer.SortStable | task_01.py:72 | Jobs of equal priority keep their input order. |
| PrintOptimizer.InsertStable | task_01.py:72 | Inserting a job keeps each priority class in order, with the new job last in its class. |
| PrintOptimizer.MaxPrintTime | task_01.py:85 | The group time is the print time of one of its jobs and no job's time exceeds it. |
| PrintOptimizer.PlanNonEmpty | task_01.py:85 | The planner never emits an empty group, so `max` never fails. |
| PrintOptimizer.Summarize | task_01.py:78-86 | The loop yields the ids group after group and the sum of each group's longest time. |
| PrintOptimizer.OptimizePrinting | task_01.py:56-91 | The result is the schedule of the planner's groups for the priority-sorted jobs. Its print order is a permutation of the input ids. |
| PrintOptimizer.PrintOrderIsPermutation | task_01.py:72-83 | The print order names every input job exactly as often as it occurs. |
| PrintOptimizer.EmptySchedule | task_01.py:78-91 | No jobs give an empty print order and a total time of 0. |
| PrintOptimizer.TotalTimeBounds | task_01.py:79-86 | With non-negative times, the total is at least every job's print time. It is at most the sum of all print times. |
| PrintOptimizer.GroupsTimeBounds | task_01.py:79-86 | The same bounds hold for any split of the jobs into non-empty groups. |
| PrintOptimizer.TotalAtMostSum | task_01.py:79-86 | Batching never takes longer than printing the jobs one by one. |
| PrintOptimizer.TotalAtLeastGroup | task_01.py:79-86 | No group's time exceeds the total. |
| PrintOptimizer.TotalTimeAppend | task_01.py:84-86 | Adding a group adds its longest print time to the total. |
| PrintOptimizer.IdsPermutation | task_01.py:81-83 | The multiset of ids depends only on the multiset of jobs. |
| PrintOptimizer.SumTimesPermutation | task_01.py:79-86 | The summed print time depends only on the multiset of jobs. |
| PrintOptimizer.MaxAtMostSum | task_01.py:85 | A group's longest time is at most its summed time, for non-negative times. |
| Scenarios.SingleJobRound | task_01.py:31-52 | A single remaining job is always emitted alone: chosen when it fits, as the fallback otherwise. |
| Scenarios.CombosOfThree | task_01.py:35 | The enumeration for three jobs is `(0,),(1,),(2,)` and `(0,1),(0,2),(1,2)`, as `combinations` yields them. |
| Scenarios.SamePriority | task_01.py:95-99 | Test 1 gives print order M1, M2, M3 and a total time of 270. |
| Scenarios.SamePriorityPlan | task_01.py:95-99 | Test 1 is batched as [M1, M2], then [M3]. |
| Scenarios.MixedPriority | task_01.py:102-106 | Test 2 gives print order M2, M1, M3 and a total time of 270. |
| Scenarios.MixedPriorityPlan | task_01.py:102-106 | Test 2 sorts to M2, M1, M3 and is batched as [M2, M1], then [M3]. |
| Scenarios.Bulky | task_01.py:109-113 | Test 3 gives print order M1, M2, M3 and a total time of 450. |
| Scenarios.BulkyNoPair | task_01.py:109-113 | In test 3 no pair fits under 300. |
| Scenarios.BulkyPlan | task_01.py:109-113 | Test 3 prints every job alone. |
| Scenarios.NothingFitsFallback | task_01.py:49-52 | Two jobs that each exceed `max_volume` are printed by the fallback, one per batch, in order. |

## Left out

- Float rounding of the volume sum at line 36: volumes are exact reals, so sums that IEEE rounding would push over `max_volume` are not modelled.
- The dictionary-to-record conversion `PrintJob(**job)` / `PrinterConstraints(**constraints)` at lines 68-69: the model takes typed records. Missing or extra keys are therefore not modelled.
- The result dictionary at lines 88-91 is the `Schedule` datatype.
- `test_printing_optimization` and the `__main__` entry point (lines 93-136) are console output. Their data is used as concrete inputs in `Scenarios`.
- The exponential cost of the combination search is not modelled: it is a performance matter, not behaviour.
- `list.sort` at line 72 (Timsort, in place) is modelled as the pure stable insertion sort `SortByPriority`. A stable sort by a key has a unique result, so the order is the same. The list it sorts is the local one built at line 68, so its in-place sort is modelled as a value.
- `jobs.copy()` at line 29 is implicit, because sequences are values. The caller's list is unchanged by construction, not by a proof.
- `RemoveFirst` is total, so removing an absent job does nothing instead of raising `ValueError`. `RemoveGroup` requires, and the planner establishes, that every removed job is present, so that path is never reached.
- The model follows the code on three points:
  - The fallback at lines 49-52 really can fire: when every remaining job alone exceeds `max_volume`, and for every job when `max_items <= 0`. Non-positive limits are not rejected.
  - Removal is by value equality (`list.remove`), not by position. It may remove an equal but different job. The remaining multiset is the same either way, which is all the model's properties use.
  - Print times are integers, as in the record at line 10.
