/**
 * The batch planner `create_print_groups` (task_01.py:17-54). Each round it
 * searches the remaining jobs for the largest combination, up to the item
 * limit, whose summed volume fits the printer, taking the first such
 * combination in `itertools.combinations` order; failing that it prints the
 * first remaining job alone.
 *
 * The search is specified by `Choice`, the round structure by `Plan`; the
 * methods `FindGroup` and `CreatePrintGroups` carry the source's loops and
 * are proved equal to them.
 */
module PrintGroups {
  import opened PrintJobs
  import opened Combinations

  datatype Option<T> = None | Some(value: T)

  /** Every position of `combo` is a position of a pool of `n` jobs. */
  ghost predicate InBounds(combo: seq<nat>, n: nat)
  {
    forall t :: 0 <= t < |combo| ==> combo[t] < n
  }

  /** The jobs at the positions of `combo`, in that order (`list(combo)`). */
  function Pick(pool: seq<PrintJob>, combo: seq<nat>): (group: seq<PrintJob>)
    requires InBounds(combo, |pool|)
    ensures |group| == |combo|
  {
    seq(|combo|, t requires 0 <= t < |combo| => pool[combo[t]])
  }

  /** The test of task_01.py:36-38: the combination's summed volume is within the limit. */
  predicate Fits(pool: seq<PrintJob>, combo: seq<nat>, maxVolume: real)
    requires IsComboFrom(combo, 0, |pool|)
  {
    ComboBounds(combo, 0, |pool|);
    Volume(Pick(pool, combo)) <= maxVolume
  }

  /** `min(len(remaining_jobs), max_items)`, the first group size tried (task_01.py:34). */
  function SizeBound(n: nat, maxItems: int): int
  {
    if maxItems < n then maxItems else n
  }

  /** Position of the first combination of `combos[from..]` that fits (the `break` of task_01.py:40). */
  function FirstFitFrom(pool: seq<PrintJob>, maxVolume: real, combos: seq<seq<nat>>, from: nat): (r: Option<nat>)
    requires forall combo :: combo in combos ==> IsComboFrom(combo, 0, |pool|)
    requires from <= |combos|
    ensures r.Some? ==>
      && from <= r.value < |combos|
      && Fits(pool, combos[r.value], maxVolume)
      && forall i :: from <= i < r.value ==> !Fits(pool, combos[i], maxVolume)
    ensures r.None? ==> forall i :: from <= i < |combos| ==> !Fits(pool, combos[i], maxVolume)
    decreases |combos| - from
  {
    if from == |combos| then None
    else if Fits(pool, combos[from], maxVolume) then Some(from)
    else FirstFitFrom(pool, maxVolume, combos, from + 1)
  }

  /** The combination the inner loop of task_01.py:35-40 settles on for one group size, if any. */
  function FitAtSize(pool: seq<PrintJob>, maxVolume: real, size: nat): (r: Option<seq<nat>>)
    ensures r.Some? ==> |r.value| == size && IsComboFrom(r.value, 0, |pool|) && Fits(pool, r.value, maxVolume)
  {
    var combos := Combos(|pool|, size);
    CombosFromSound(0, |pool|, size);
    match FirstFitFrom(pool, maxVolume, combos, 0)
    case Some(j) => Some(combos[j])
    case None => None
  }

  /** The outer loop of task_01.py:34-42: sizes from `size` down to 1, the first that yields a fit. */
  function Search(pool: seq<PrintJob>, c: PrinterConstraints, size: int): (r: Option<seq<nat>>)
    ensures r.Some? ==>
      && 1 <= |r.value| <= size
      && IsComboFrom(r.value, 0, |pool|)
      && Fits(pool, r.value, c.maxVolume)
    decreases size
  {
    if size <= 0 then None
    else
      match FitAtSize(pool, c.maxVolume, size)
      case Some(combo) => Some(combo)
      case None => Search(pool, c, size - 1)
  }

  /** The combination one round of task_01.py:32-42 chooses from `pool`, if any. */
  function Choice(pool: seq<PrintJob>, c: PrinterConstraints): Option<seq<nat>>
  {
    Search(pool, c, SizeBound(|pool|, c.maxItems))
  }

  /** `current_group` after the search: the chosen jobs, or empty when nothing fits. */
  function Candidate(pool: seq<PrintJob>, c: PrinterConstraints): (current: seq<PrintJob>)
    ensures current != [] <==> Choice(pool, c).Some?
    ensures current != [] ==> multiset(current) <= multiset(pool)
  {
    match Choice(pool, c)
    case Some(combo) =>
      ComboBounds(combo, 0, |pool|);
      PickSubMultiset(pool, combo, 0);
      Pick(pool, combo)
    case None => []
  }

  /** The chosen jobs are drawn from the pool, each position at most once. */
  lemma {:induction false} PickSubMultiset(pool: seq<PrintJob>, combo: seq<nat>, lo: nat)
    requires lo <= |pool|
    requires IsComboFrom(combo, lo, |pool|) && InBounds(combo, |pool|)
    ensures multiset(Pick(pool, combo)) <= multiset(pool[lo..])
    decreases |combo|
  {
    if combo != [] {
      var x := combo[0];
      PickCons(pool, combo);
      PickSubMultiset(pool, combo[1..], x + 1);
      SliceAround(pool, lo, x);
      IncludeOneMore(pool[x], multiset(Pick(pool, combo[1..])), multiset(pool[x + 1..]), multiset(pool[lo..x]));
    }
  }

  /** Inclusion survives adding the same job on both sides and more jobs on the right. */
  lemma IncludeOneMore(y: PrintJob, part: multiset<PrintJob>, whole: multiset<PrintJob>, more: multiset<PrintJob>)
    requires part <= whole
    ensures multiset{y} + part <= more + multiset{y} + whole
  {
  }

  lemma PickCons(pool: seq<PrintJob>, combo: seq<nat>)
    requires combo != [] && InBounds(combo, |pool|)
    ensures InBounds(combo[1..], |pool|)
    ensures Pick(pool, combo) == [pool[combo[0]]] + Pick(pool, combo[1..])
  {
    assert forall t :: 0 <= t < |combo| - 1 ==> combo[1..][t] == combo[t + 1];
  }

  /** Splitting `pool[lo..]` around position `x`, as multisets. */
  lemma SliceAround(pool: seq<PrintJob>, lo: nat, x: nat)
    requires lo <= x < |pool|
    ensures multiset(pool[lo..]) == multiset(pool[lo..x]) + multiset{pool[x]} + multiset(pool[x + 1..])
  {
    assert pool[lo..] == pool[lo..x] + [pool[x]] + pool[x + 1..];
  }

  /** Position of the first job equal to `x`: where `list.remove` deletes. */
  function IndexOf(s: seq<PrintJob>, x: PrintJob): (k: nat)
    requires x in s
    ensures k < |s| && s[k] == x
  {
    if s[0] == x then 0 else IndexOf(s[1..], x) + 1
  }

  /** No job before that position equals `x`. */
  lemma {:induction false} IndexOfIsFirst(s: seq<PrintJob>, x: PrintJob, i: nat)
    requires x in s && i < IndexOf(s, x)
    ensures s[i] != x
  {
    if i > 0 {
      IndexOfIsFirst(s[1..], x, i - 1);
    }
  }

  /**
   * `s.remove(x)` (task_01.py:48): drops the first job equal to `x`. The
   * planner only ever removes a job that is present (see `RemoveGroup`).
   */
  function RemoveFirst(s: seq<PrintJob>, x: PrintJob): seq<PrintJob>
  {
    if s == [] then []
    else if s[0] == x then s[1..]
    else [s[0]] + RemoveFirst(s[1..], x)
  }

  /** `RemoveFirst` deletes exactly the job at `IndexOf`, so one copy of `x` leaves. */
  lemma RemoveFirstDeletesFirst(s: seq<PrintJob>, x: PrintJob)
    requires x in s
    ensures RemoveFirst(s, x) == s[..IndexOf(s, x)] + s[IndexOf(s, x) + 1..]
    ensures |RemoveFirst(s, x)| == |s| - 1
    ensures multiset(RemoveFirst(s, x)) == multiset(s) - multiset{x}
  {
    RemoveFirstAt(s, x);
    DeleteAt(s, IndexOf(s, x));
  }

  lemma {:induction false} RemoveFirstAt(s: seq<PrintJob>, x: PrintJob)
    requires x in s
    ensures RemoveFirst(s, x) == s[..IndexOf(s, x)] + s[IndexOf(s, x) + 1..]
  {
    if s[0] != x {
      var k := IndexOf(s[1..], x);
      assert IndexOf(s, x) == k + 1;
      assert RemoveFirst(s, x) == [s[0]] + RemoveFirst(s[1..], x);
      RemoveFirstAt(s[1..], x);
      assert [s[0]] + s[1..][..k] == s[..k + 1];
      assert s[1..][k + 1..] == s[k + 2..];
    }
  }

  /** Deleting position `k` removes one copy of the job there and nothing else. */
  lemma DeleteAt(s: seq<PrintJob>, k: nat)
    requires k < |s|
    ensures |s[..k] + s[k + 1..]| == |s| - 1
    ensures multiset(s[..k] + s[k + 1..]) == multiset(s) - multiset{s[k]}
  {
    assert s == s[..k] + [s[k]] + s[k + 1..];
    assert multiset(s) == multiset(s[..k] + s[k + 1..]) + multiset{s[k]};
  }

  /** `for job in group: s.remove(job)` (task_01.py:47-48). */
  function RemoveAll(s: seq<PrintJob>, group: seq<PrintJob>): seq<PrintJob>
    decreases |group|
  {
    if group == [] then s
    else RemoveAll(RemoveFirst(s, group[0]), group[1..])
  }

  /** Removing a group drawn from `s` leaves exactly the jobs that were not in it. */
  lemma {:induction false} RemoveAllMultiset(s: seq<PrintJob>, group: seq<PrintJob>)
    requires multiset(group) <= multiset(s)
    ensures |RemoveAll(s, group)| == |s| - |group|
    ensures multiset(RemoveAll(s, group)) == multiset(s) - multiset(group)
    decreases |group|
  {
    if group != [] {
      var x := group[0];
      assert group == [x] + group[1..];
      assert x in multiset(group);
      RemoveFirstDeletesFirst(s, x);
      RemoveAllMultiset(RemoveFirst(s, x), group[1..]);
    }
  }

  /**
   * One pass of the `while` body (task_01.py:32-52): the group emitted and
   * the jobs that remain, either the chosen combination with its jobs
   * removed, or the first job alone.
   */
  function Round(pool: seq<PrintJob>, c: PrinterConstraints): (r: (seq<PrintJob>, seq<PrintJob>))
    requires pool != []
    ensures |r.1| < |pool|
  {
    var current := Candidate(pool, c);
    if current != [] then
      RemoveAllMultiset(pool, current);
      (current, RemoveAll(pool, current))
    else ([pool[0]], pool[1..])
  }

  /** The groups `create_print_groups` returns for `pool` (task_01.py:28-54). */
  function Plan(pool: seq<PrintJob>, c: PrinterConstraints): seq<seq<PrintJob>>
    decreases |pool|
  {
    if pool == [] then []
    else
      var (group, rest) := Round(pool, c);
      [group] + Plan(rest, c)
  }

  /** The two ways a round can go: the chosen jobs, or the first job alone. */
  lemma RoundCases(pool: seq<PrintJob>, c: PrinterConstraints)
    requires pool != []
    ensures Candidate(pool, c) != [] ==>
      && multiset(Candidate(pool, c)) <= multiset(pool)
      && Round(pool, c) == (Candidate(pool, c), RemoveAll(pool, Candidate(pool, c)))
    ensures Candidate(pool, c) == [] ==> Round(pool, c) == ([pool[0]], pool[1..])
  {
  }

  /** Recording one more round keeps "groups so far, then the plan for the rest" equal to the plan. */
  lemma PlanAdvance(jobs: seq<PrintJob>, c: PrinterConstraints, groups: seq<seq<PrintJob>>,
                    pool: seq<PrintJob>, current: seq<PrintJob>, remaining: seq<PrintJob>)
    requires pool != [] && Round(pool, c) == (current, remaining)
    requires groups + Plan(pool, c) == Plan(jobs, c)
    ensures (groups + [current]) + Plan(remaining, c) == Plan(jobs, c)
  {
    PlanStep(pool, c);
    assert groups + Plan(pool, c) == (groups + [current]) + Plan(remaining, c);
  }

  /** One round of the planner, then the plan for what is left. */
  lemma PlanStep(pool: seq<PrintJob>, c: PrinterConstraints)
    requires pool != []
    ensures Plan(pool, c) == [Round(pool, c).0] + Plan(Round(pool, c).1, c)
  {
  }

  /**
   * A group the planner may emit: within both limits, or a single job printed
   * alone because nothing fitted (it is too large, or the item limit is not positive).
   */
  ghost predicate GroupOk(group: seq<PrintJob>, c: PrinterConstraints)
  {
    || (1 <= |group| <= c.maxItems && Volume(group) <= c.maxVolume)
    || (|group| == 1 && (c.maxItems <= 0 || group[0].volume > c.maxVolume))
  }

  /** The search of task_01.py:32-42: sizes from the bound down to 1, stopping at the first fit. */
  method FindGroup(pool: seq<PrintJob>, c: PrinterConstraints) returns (current: seq<PrintJob>)
    ensures current == Candidate(pool, c)
  {
    current := [];
    var size := SizeBound(|pool|, c.maxItems);
    while size > 0
      invariant Search(pool, c, size) == Choice(pool, c)
      invariant current == []
      decreases size
    {
      current := FirstFitting(pool, c.maxVolume, size);
      if current != [] {
        break;
      }
      size := size - 1;
    }
  }

  /**
   * The inner loop of task_01.py:35-40: the first combination of `size`
   * jobs, in enumeration order, whose volume fits; empty when there is none.
   */
  method FirstFitting(pool: seq<PrintJob>, maxVolume: real, size: nat) returns (current: seq<PrintJob>)
    requires size >= 1
    ensures FitAtSize(pool, maxVolume, size).None? <==> current == []
    ensures FitAtSize(pool, maxVolume, size).Some? ==>
      && InBounds(FitAtSize(pool, maxVolume, size).value, |pool|)
      && current == Pick(pool, FitAtSize(pool, maxVolume, size).value)
  {
    current := [];
    var combos := Combos(|pool|, size);
    CombosFromSound(0, |pool|, size);
    var j := 0;
    while j < |combos|
      invariant 0 <= j <= |combos|
      invariant FirstFitFrom(pool, maxVolume, combos, j) == FirstFitFrom(pool, maxVolume, combos, 0)
      invariant current == []
    {
      var combo := combos[j];
      ComboBounds(combo, 0, |pool|);
      var totalVolume := Volume(Pick(pool, combo));
      if totalVolume <= maxVolume {
        current := Pick(pool, combo);
        return;
      }
      j := j + 1;
    }
  }

  /**
   * The removal loop of task_01.py:47-48: `remaining_jobs.remove(job)` for
   * each chosen job; every job removed is still present when its turn comes,
   * so `list.remove` never raises.
   */
  method RemoveGroup(pool: seq<PrintJob>, current: seq<PrintJob>) returns (remaining: seq<PrintJob>)
    requires multiset(current) <= multiset(pool)
    ensures remaining == RemoveAll(pool, current)
  {
    remaining := pool;
    for t := 0 to |current|
      invariant multiset(current[t..]) <= multiset(remaining)
      invariant RemoveAll(remaining, current[t..]) == RemoveAll(pool, current)
    {
      assert current[t..] == [current[t]] + current[t + 1..];
      assert current[t] in multiset(current[t..]);
      assert current[t] in remaining;
      RemoveFirstDeletesFirst(remaining, current[t]);
      remaining := RemoveFirst(remaining, current[t]);
    }
    assert current[|current|..] == [];
  }

  /** `create_print_groups` (task_01.py:17-54); `jobs` itself is a value and stays as it was. */
  method CreatePrintGroups(jobs: seq<PrintJob>, c: PrinterConstraints) returns (groups: seq<seq<PrintJob>>)
    ensures groups == Plan(jobs, c)
    ensures jobs == [] ==> groups == []
    ensures multiset(Flatten(groups)) == multiset(jobs)
    ensures forall group :: group in groups ==> GroupOk(group, c)
  {
    groups := [];
    var remaining := jobs;
    while remaining != []
      invariant groups + Plan(remaining, c) == Plan(jobs, c)
      decreases |remaining|
    {
      ghost var pool := remaining;
      var current := FindGroup(remaining, c);
      RoundCases(pool, c);
      if current != [] {
        remaining := RemoveGroup(remaining, current);
      } else {
        current := [remaining[0]];
        remaining := remaining[1..];
      }
      PlanAdvance(jobs, c, groups, pool, current, remaining);
      groups := groups + [current];
    }
    assert groups == Plan(jobs, c);
    PlanPartition(jobs, c);
    PlanGroupsOk(jobs, c);
  }

  // ---------------------------------------------------------------------
  // The search, stated without reference to the enumeration.

  /** No combination of `size` jobs of the pool fits within `maxVolume`. */
  ghost predicate NoneFitsAtSize(pool: seq<PrintJob>, maxVolume: real, size: nat)
  {
    forall combo :: IsComboFrom(combo, 0, |pool|) && |combo| == size ==> !Fits(pool, combo, maxVolume)
  }

  /** No combination of any size from 1 to the size bound fits. */
  ghost predicate NothingFits(pool: seq<PrintJob>, c: PrinterConstraints)
  {
    forall size :: 1 <= size <= SizeBound(|pool|, c.maxItems) ==> NoneFitsAtSize(pool, c.maxVolume, size)
  }

  /**
   * The greedy choice: `combo` fits, no larger combination up to the size
   * bound fits, and every other fitting combination of its size comes after
   * it in lexicographic order of positions.
   */
  ghost predicate IsGreedyChoice(pool: seq<PrintJob>, c: PrinterConstraints, combo: seq<nat>)
  {
    && IsComboFrom(combo, 0, |pool|)
    && 1 <= |combo| <= SizeBound(|pool|, c.maxItems)
    && Fits(pool, combo, c.maxVolume)
    && (forall size :: |combo| < size <= SizeBound(|pool|, c.maxItems) ==> NoneFitsAtSize(pool, c.maxVolume, size))
    && (forall other :: IsComboFrom(other, 0, |pool|) && |other| == |combo| && Fits(pool, other, c.maxVolume) ==>
          other == combo || LexLess(combo, other))
  }

  /** At one size the search comes up empty exactly when no combination of that size fits. */
  lemma FitAtSizeNone(pool: seq<PrintJob>, maxVolume: real, size: nat)
    ensures FitAtSize(pool, maxVolume, size).None? <==> NoneFitsAtSize(pool, maxVolume, size)
  {
    var combos := Combos(|pool|, size);
    CombosFromSound(0, |pool|, size);
    if FitAtSize(pool, maxVolume, size).None? {
      assert FirstFitFrom(pool, maxVolume, combos, 0).None?;
      forall combo | IsComboFrom(combo, 0, |pool|) && |combo| == size
        ensures !Fits(pool, combo, maxVolume)
      {
        CombosComplete(combo, |pool|);
        var m :| 0 <= m < |combos| && combos[m] == combo;
      }
    }
  }

  /** At one size the search returns the lexicographically first fitting combination. */
  lemma FitAtSizeFirst(pool: seq<PrintJob>, maxVolume: real, size: nat, other: seq<nat>)
    requires FitAtSize(pool, maxVolume, size).Some?
    requires IsComboFrom(other, 0, |pool|) && |other| == size && Fits(pool, other, maxVolume)
    ensures var combo := FitAtSize(pool, maxVolume, size).value;
      other == combo || LexLess(combo, other)
  {
    var combos := Combos(|pool|, size);
    CombosFromSound(0, |pool|, size);
    var j := FirstFitFrom(pool, maxVolume, combos, 0).value;
    assert FitAtSize(pool, maxVolume, size).value == combos[j];
    CombosComplete(other, |pool|);
    var m :| 0 <= m < |combos| && combos[m] == other;
    if m != j {
      assert j < m;
      CombosFromSorted(0, |pool|, size);
    }
  }

  /** The size loop gives up exactly when no size from 1 to `size` has a fitting combination. */
  lemma {:induction false} SearchNone(pool: seq<PrintJob>, c: PrinterConstraints, size: int)
    ensures Search(pool, c, size).None? <==>
      forall s :: 1 <= s <= size ==> NoneFitsAtSize(pool, c.maxVolume, s)
    decreases size
  {
    if size > 0 {
      FitAtSizeNone(pool, c.maxVolume, size);
      SearchNone(pool, c, size - 1);
    }
  }

  /** What the size loop returns is maximal in size and first in order at its size. */
  lemma {:induction false} SearchSome(pool: seq<PrintJob>, c: PrinterConstraints, size: int)
    requires Search(pool, c, size).Some?
    ensures var combo := Search(pool, c, size).value;
      && (forall s :: |combo| < s <= size ==> NoneFitsAtSize(pool, c.maxVolume, s))
      && (forall other :: IsComboFrom(other, 0, |pool|) && |other| == |combo| && Fits(pool, other, c.maxVolume) ==>
            other == combo || LexLess(combo, other))
    decreases size
  {
    match FitAtSize(pool, c.maxVolume, size)
    case Some(combo) =>
      forall other | IsComboFrom(other, 0, |pool|) && |other| == |combo| && Fits(pool, other, c.maxVolume)
        ensures other == combo || LexLess(combo, other)
      {
        FitAtSizeFirst(pool, c.maxVolume, size, other);
      }
    case None =>
      FitAtSizeNone(pool, c.maxVolume, size);
      SearchSome(pool, c, size - 1);
  }

  /** A round falls back to a single job exactly when nothing fits at any size tried. */
  lemma ChoiceNone(pool: seq<PrintJob>, c: PrinterConstraints)
    ensures Choice(pool, c).None? <==> NothingFits(pool, c)
  {
    SearchNone(pool, c, SizeBound(|pool|, c.maxItems));
  }

  /** The combination a round chooses is exactly the greedy choice. */
  lemma ChoiceIsGreedy(pool: seq<PrintJob>, c: PrinterConstraints, combo: seq<nat>)
    ensures Choice(pool, c) == Some(combo) <==> IsGreedyChoice(pool, c, combo)
  {
    var bound := SizeBound(|pool|, c.maxItems);
    if Choice(pool, c) == Some(combo) {
      SearchSome(pool, c, bound);
    }
    if IsGreedyChoice(pool, c, combo) {
      ChoiceNone(pool, c);
      assert !NoneFitsAtSize(pool, c.maxVolume, |combo|);
      var x := Choice(pool, c).value;
      SearchSome(pool, c, bound);
      assert !NoneFitsAtSize(pool, c.maxVolume, |x|);
      assert |x| == |combo|;
      if x != combo {
        LexLessAsymmetric(x, combo);
      }
    }
  }

  /** The one job `[k]` fits exactly when its own volume does. */
  lemma SingleFits(pool: seq<PrintJob>, maxVolume: real, k: nat)
    requires k < |pool|
    ensures IsComboFrom([k], 0, |pool|) && |[k]| == 1
    ensures Fits(pool, [k], maxVolume) <==> pool[k].volume <= maxVolume
  {
    assert [k][1..] == [];
    assert Pick(pool, [k]) == [pool[k]];
    assert Volume([pool[k]]) == pool[k].volume + Volume([]);
  }

  /**
   * With a positive item limit, a round falls back to `remaining_jobs[0]`
   * only when every remaining job alone exceeds the volume limit, and (with
   * no negative volumes) always does then.
   */
  lemma FallbackOnlyWhenAllTooLarge(pool: seq<PrintJob>, c: PrinterConstraints)
    requires pool != [] && c.maxItems >= 1
    ensures Choice(pool, c).None? ==> forall k :: 0 <= k < |pool| ==> pool[k].volume > c.maxVolume
    ensures NonNegativeVolumes(pool) && (forall k :: 0 <= k < |pool| ==> pool[k].volume > c.maxVolume) ==>
      Choice(pool, c).None?
  {
    ChoiceNone(pool, c);
    if Choice(pool, c).None? {
      forall k | 0 <= k < |pool| ensures pool[k].volume > c.maxVolume {
        SingleFits(pool, c.maxVolume, k);
        assert NoneFitsAtSize(pool, c.maxVolume, 1);
      }
    }
    if NonNegativeVolumes(pool) && (forall k :: 0 <= k < |pool| ==> pool[k].volume > c.maxVolume) {
      forall combo | IsComboFrom(combo, 0, |pool|) && 1 <= |combo|
        ensures !Fits(pool, combo, c.maxVolume)
      {
        ComboBounds(combo, 0, |pool|);
        var group := Pick(pool, combo);
        assert group[0] == pool[combo[0]];
        VolumeAtLeastMember(group, 0);
      }
      assert NothingFits(pool, c);
    }
  }

  // ---------------------------------------------------------------------
  // The whole plan.

  /** A chosen group has between 1 and `max_items` jobs and fits within `max_volume`. */
  lemma CandidateOk(pool: seq<PrintJob>, c: PrinterConstraints)
    requires Candidate(pool, c) != []
    ensures 1 <= |Candidate(pool, c)| <= c.maxItems
    ensures Volume(Candidate(pool, c)) <= c.maxVolume
  {
    var combo := Choice(pool, c).value;
    ComboBounds(combo, 0, |pool|);
    assert Candidate(pool, c) == Pick(pool, combo);
  }

  /** A fallback group is a single job that is too large, or the item limit is not positive. */
  lemma FallbackOk(pool: seq<PrintJob>, c: PrinterConstraints)
    requires pool != [] && Candidate(pool, c) == []
    ensures c.maxItems <= 0 || pool[0].volume > c.maxVolume
  {
    if c.maxItems >= 1 {
      FallbackOnlyWhenAllTooLarge(pool, c);
    }
  }

  /** The groups partition the jobs: each job lands in exactly one group. */
  lemma {:induction false} PlanPartition(pool: seq<PrintJob>, c: PrinterConstraints)
    ensures multiset(Flatten(Plan(pool, c))) == multiset(pool)
    decreases |pool|
  {
    if pool != [] {
      var r := Round(pool, c);
      PlanStep(pool, c);
      PlanPartition(r.1, c);
      assert Flatten([r.0] + Plan(r.1, c)) == r.0 + Flatten(Plan(r.1, c));
      RoundPartition(pool, c);
    }
  }

  /** One round splits the pool into the emitted group and the jobs that remain. */
  lemma RoundPartition(pool: seq<PrintJob>, c: PrinterConstraints)
    requires pool != []
    ensures multiset(Round(pool, c).0) + multiset(Round(pool, c).1) == multiset(pool)
  {
    var current := Candidate(pool, c);
    if current != [] {
      RemoveAllMultiset(pool, current);
    } else {
      assert pool == [pool[0]] + pool[1..];
    }
  }

  /** Every group is non-empty and within both limits, or a lone job the limits forced out. */
  lemma {:induction false} PlanGroupsOk(pool: seq<PrintJob>, c: PrinterConstraints)
    ensures forall group :: group in Plan(pool, c) ==> GroupOk(group, c)
    decreases |pool|
  {
    if pool != [] {
      var (group, rest) := Round(pool, c);
      PlanGroupsOk(rest, c);
      if Candidate(pool, c) != [] {
        CandidateOk(pool, c);
      } else {
        FallbackOk(pool, c);
      }
    }
  }

  /** With no negative volume, a job over the volume limit is always printed alone. */
  lemma OversizedJobAlone(pool: seq<PrintJob>, c: PrinterConstraints, group: seq<PrintJob>, x: PrintJob)
    requires NonNegativeVolumes(pool)
    requires group in Plan(pool, c) && x in group && x.volume > c.maxVolume
    ensures group == [x]
  {
    PlanGroupsOk(pool, c);
    PlanPartition(pool, c);
    assert NonNegativeVolumes(group) by {
      forall k | 0 <= k < |group| ensures group[k].volume >= 0.0 {
        InFlatten(Plan(pool, c), group[k]);
        assert group[k] in multiset(pool);
      }
    }
    var k :| 0 <= k < |group| && group[k] == x;
    VolumeAtLeastMember(group, k);
  }

  /** With an item limit of zero or less, every job is printed alone, in order. */
  lemma {:induction false} PlanWithoutItemLimit(pool: seq<PrintJob>, c: PrinterConstraints)
    requires c.maxItems <= 0
    ensures Plan(pool, c) == seq(|pool|, k requires 0 <= k < |pool| => [pool[k]])
    decreases |pool|
  {
    if pool != [] {
      assert Choice(pool, c).None?;
      PlanWithoutItemLimit(pool[1..], c);
    }
  }
}
