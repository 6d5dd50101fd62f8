/** The `stats` object and `completionRate` of src/TaskStats.tsx. */
module TaskStats {
  import opened Seqs
  import opened Types

  datatype Stats = Stats(total: nat, todo: nat, inProgress: nat, done: nat, highPriority: nat)

  /** Every task has exactly one of the three statuses, so the status counts add up to the total. */
  lemma {:induction false} StatusCountsPartition(ts: seq<Task>)
    ensures |Filter(ts, StatusIs(Todo))| + |Filter(ts, StatusIs(InProgress))| + |Filter(ts, StatusIs(Done))| == |ts|
  {
    if ts != [] {
      StatusCountsPartition(ts[1..]);
    }
  }

  /** `filter(...).length` per status and for high priority. */
  function ComputeStats(ts: seq<Task>): (s: Stats)
    ensures s.total == |ts|
    ensures s.todo == |Filter(ts, StatusIs(Todo))| && s.inProgress == |Filter(ts, StatusIs(InProgress))|
    ensures s.done == |Filter(ts, StatusIs(Done))| && s.highPriority == |Filter(ts, PriorityIs(High))|
    ensures s.todo + s.inProgress + s.done == s.total
    ensures s.done <= s.total && s.highPriority <= s.total
    ensures s.done == s.total <==> forall k :: 0 <= k < |ts| ==> ts[k].status == Done
    ensures s.done == 0 <==> forall k :: 0 <= k < |ts| ==> ts[k].status != Done
  {
    StatusCountsPartition(ts);
    AllPassIffFilterIsAll(ts, StatusIs(Done));
    Stats(
      |ts|,
      |Filter(ts, StatusIs(Todo))|,
      |Filter(ts, StatusIs(InProgress))|,
      |Filter(ts, StatusIs(Done))|,
      |Filter(ts, PriorityIs(High))|)
  }

  /** The filtered list is full length exactly when everything passes, empty exactly when nothing does. */
  lemma {:induction false} AllPassIffFilterIsAll(ts: seq<Task>, p: Task -> bool)
    ensures |Filter(ts, p)| == |ts| <==> forall k :: 0 <= k < |ts| ==> p(ts[k])
    ensures |Filter(ts, p)| == 0 <==> forall k :: 0 <= k < |ts| ==> !p(ts[k])
  {
    if ts != [] {
      AllPassIffFilterIsAll(ts[1..], p);
      assert forall k :: 1 <= k < |ts| ==> ts[k] == ts[1..][k - 1];
    }
  }

  /**
   * `total > 0 ? Math.round((done / total) * 100) : 0`, in exact arithmetic:
   * 100 * done / total rounded half up.
   */
  function CompletionRate(s: Stats): (r: nat)
    ensures s.total == 0 ==> r == 0
    ensures s.total > 0 ==> 2 * s.total * r <= 200 * s.done + s.total < 2 * s.total * (r + 1)
    ensures s.done <= s.total ==> r <= 100
    ensures s.total > 0 && s.done == s.total ==> r == 100
    ensures s.done == 0 ==> r == 0
  {
    if s.total > 0 then
      var r := (200 * s.done + s.total) / (2 * s.total);
      RoundingBounds(s.done, s.total, r);
      r
    else 0
  }

  lemma RoundingBounds(done: nat, total: nat, r: nat)
    requires total > 0 && r == (200 * done + total) / (2 * total)
    ensures 2 * total * r <= 200 * done + total < 2 * total * (r + 1)
    ensures done <= total ==> r <= 100
    ensures done == total ==> r == 100
    ensures done == 0 ==> r == 0
  {
    var n, d := 200 * done + total, 2 * total;
    var m := n % d;
    assert n == d * r + m && 0 <= m < d;
    assert d * (r + 1) == d * r + d;
    if done <= total && r > 100 {
      MulMonotone(d, 101, r);
    }
    if done == total {
      DivUnique(n, d, 100, total);
    }
    if done == 0 {
      DivUnique(n, d, 0, total);
    }
  }

  lemma MulMonotone(d: nat, a: nat, b: nat)
    requires a <= b
    ensures d * a <= d * b
  {
    assert d * b == d * a + d * (b - a);
  }

  lemma DivUnique(n: nat, d: nat, q: nat, m: nat)
    requires 0 <= m < d && n == d * q + m
    ensures n / d == q
  {
    var q', m' := n / d, n % d;
    assert n == d * q' + m';
    if q' < q {
      MulMonotone(d, q' + 1, q);
    } else if q' > q {
      MulMonotone(d, q + 1, q');
    }
  }
}
