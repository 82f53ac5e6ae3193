/** The statistics strip above a task board: counts by status and priority
    and the completion percentage. `Math.round((done / total) * 100)` is
    computed exactly on integers: the nearest whole percentage, halves
    rounded up. */
module TaskStats {
  import opened Common
  import opened Entities

  datatype Stats = Stats(total: nat, done: nat, inProgress: nat, todo: nat, urgent: nat)

  /** `stats`: `total` is the number of tasks, and each other figure is the
      number of positions holding a task of that status (or, for `urgent`,
      that priority); the three status figures together with the uncounted
      `review` tasks make up the total. */
  function StatsOf(tasks: seq<Task>): (s: Stats)
    ensures s.total == |tasks|
    ensures s.done == |set i | 0 <= i < |tasks| && tasks[i].status == Done|
    ensures s.inProgress == |set i | 0 <= i < |tasks| && tasks[i].status == InProgress|
    ensures s.todo == |set i | 0 <= i < |tasks| && tasks[i].status == Todo|
    ensures s.urgent == |set i | 0 <= i < |tasks| && tasks[i].priority == Urgent|
    ensures s.done + s.inProgress + s.todo
            + |set i | 0 <= i < |tasks| && tasks[i].status == Review| == s.total
    ensures s.urgent <= s.total
  {
    StatusPartition(tasks);
    UrgentCount(tasks);
    Stats(|tasks|, |OfStatus(tasks, Done)|, |OfStatus(tasks, InProgress)|,
          |OfStatus(tasks, Todo)|, Count(tasks, (t: Task) => t.priority == Urgent))
  }

  lemma UrgentCount(tasks: seq<Task>)
    ensures Count(tasks, (t: Task) => t.priority == Urgent)
         == |set i | 0 <= i < |tasks| && tasks[i].priority == Urgent|
  {
    var urgent := (t: Task) => t.priority == Urgent;
    assert Positions(tasks, urgent) == set i | 0 <= i < |tasks| && tasks[i].priority == Urgent;
  }

  /** `total > 0 ? Math.round((done / total) * 100) : 0`: the whole number
      nearest to 100 * done / total (halves up), or 0 for no tasks. */
  function CompletionRate(done: nat, total: nat): (r: nat)
    ensures total == 0 ==> r == 0
    ensures total > 0 ==> 2 * total * r <= 200 * done + total < 2 * total * (r + 1)
  {
    if total > 0 then
      var r := (200 * done + total) / (2 * total);
      DivBounds(200 * done + total, 2 * total);
      r
    else 0
  }

  lemma DivBounds(a: nat, b: nat)
    requires b > 0
    ensures b * (a / b) <= a < b * (a / b + 1)
  {
    assert a == b * (a / b) + a % b;
  }

  /** The percentage never leaves 0..100, is 100 when every task is done and
      0 when none is. */
  lemma RateBounds(done: nat, total: nat)
    requires done <= total
    ensures 0 <= CompletionRate(done, total) <= 100
    ensures total > 0 && done == total ==> CompletionRate(done, total) == 100
    ensures done == 0 ==> CompletionRate(done, total) == 0
  {
    var r := CompletionRate(done, total);
    if total > 0 {
      assert 2 * total * r <= 200 * total + total;
      if r > 100 {
        assert 2 * total * r >= 2 * total * 101 by {
          assert r >= 101;
          MulMono(2 * total, 101, r);
        }
      }
      if done == total {
        assert 200 * total + total < 2 * total * (r + 1);
        if r < 100 {
          MulMono(2 * total, r + 1, 100);
        }
      }
      if done == 0 {
        assert total < 2 * total * (r + 1);
        if r > 0 {
          MulMono(2 * total, 1, r);
        }
      }
    }
  }

  lemma MulMono(k: nat, a: nat, b: nat)
    requires a <= b
    ensures k * a <= k * b
  {
  }

  /** The rounded figure can read 100 before every task is done. */
  lemma NearlyDoneReadsFull()
    ensures CompletionRate(199, 200) == 100
  {
  }

  /** The completion rate of a task list: the rounded percentage of its
      positions that hold a done task. */
  function TaskCompletionRate(tasks: seq<Task>): (r: nat)
    ensures r == CompletionRate(|set i | 0 <= i < |tasks| && tasks[i].status == Done|, |tasks|)
    ensures r <= 100
    ensures tasks == [] ==> r == 0
  {
    var s := StatsOf(tasks);
    RateBounds(s.done, s.total);
    CompletionRate(s.done, s.total)
  }

  lemma AllOrNothingDone(tasks: seq<Task>)
    ensures tasks != [] && (forall t :: t in tasks ==> t.status == Done) ==> TaskCompletionRate(tasks) == 100
    ensures (forall t :: t in tasks ==> t.status != Done) ==> TaskCompletionRate(tasks) == 0
  {
    OfStatusAllOrNone(tasks, Done);
    RateBounds(|tasks|, |tasks|);
    RateBounds(0, |tasks|);
  }

  /** The completion bar is drawn only for a non-empty board. */
  predicate ShowsCompletionBar(s: Stats) {
    s.total > 0
  }

  /** The bar shows exactly when the board has a task; when it is hidden
      the rate would read 0. */
  lemma CompletionBarShown(tasks: seq<Task>)
    ensures ShowsCompletionBar(StatsOf(tasks)) <==> tasks != []
    ensures !ShowsCompletionBar(StatsOf(tasks)) ==> TaskCompletionRate(tasks) == 0
  {
  }
}
