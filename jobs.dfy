/** The records the planner works on: a print job and the printer's limits. */
module PrintJobs {

  /** One model to print (task_01.py:5-10). Volumes are exact reals, not IEEE floats. */
  datatype PrintJob = PrintJob(id: string, volume: real, priority: int, printTime: int)

  /** The printer's capacity for one batch (task_01.py:12-15). */
  datatype PrinterConstraints = PrinterConstraints(maxVolume: real, maxItems: int)

  /**
   * `sum(job.volume for job in group)`. It is added up from the right here, while
   * Python adds from the left; with exact reals the two sums are equal.
   */
  function Volume(group: seq<PrintJob>): real
  {
    if group == [] then 0.0 else group[0].volume + Volume(group[1..])
  }

  /** The jobs of all groups, group after group, each in its own order. */
  function Flatten(groups: seq<seq<PrintJob>>): seq<PrintJob>
  {
    if groups == [] then [] else groups[0] + Flatten(groups[1..])
  }

  ghost predicate NonNegativeVolumes(jobs: seq<PrintJob>)
  {
    forall k :: 0 <= k < |jobs| ==> jobs[k].volume >= 0.0
  }

  /** With no negative volume, a group weighs at least as much as any of its jobs. */
  lemma {:induction false} VolumeAtLeastMember(group: seq<PrintJob>, k: nat)
    requires NonNegativeVolumes(group)
    requires k < |group|
    ensures group[k].volume <= Volume(group)
  {
    if k > 0 {
      VolumeAtLeastMember(group[1..], k - 1);
    } else if |group| > 1 {
      VolumeNonNegative(group[1..]);
    }
  }

  lemma {:induction false} VolumeNonNegative(group: seq<PrintJob>)
    requires NonNegativeVolumes(group)
    ensures Volume(group) >= 0.0
  {
    if group != [] {
      VolumeNonNegative(group[1..]);
    }
  }

  lemma {:induction false} FlattenAppend(a: seq<seq<PrintJob>>, b: seq<seq<PrintJob>>)
    ensures Flatten(a + b) == Flatten(a) + Flatten(b)
  {
    if a == [] {
      assert a + b == b;
    } else {
      assert (a + b)[1..] == a[1..] + b;
      FlattenAppend(a[1..], b);
    }
  }

  /** Every job of a flattened list comes from one of its groups, and back. */
  lemma {:induction false} InFlatten(groups: seq<seq<PrintJob>>, x: PrintJob)
    ensures x in Flatten(groups) <==> exists g :: g in groups && x in g
  {
    if groups != [] {
      InFlatten(groups[1..], x);
      assert forall g :: g in groups <==> g == groups[0] || g in groups[1..];
    }
  }

  lemma {:induction false} InFlattenAt(groups: seq<seq<PrintJob>>, t: nat, i: nat)
    requires t < |groups| && i < |groups[t]|
    ensures groups[t][i] in Flatten(groups)
    decreases t
  {
    if t > 0 {
      InFlattenAt(groups[1..], t - 1, i);
    }
  }
}
