// Waiting for bulk-insert tasks: a polling loop that removes finished tasks from the very list it iterates
// over, so that the task after a removed one is not looked at in that sweep.

module BulkIngest {

  type TaskId = string

  ghost predicate DistinctIds(tasks: seq<TaskId>) {
    forall i, j | 0 <= i < j < |tasks| :: tasks[i] != tasks[j]
  }

  /** What one sweep leaves: the task after a finished one is kept unseen. finished is the answer the
      database gives in this sweep; with distinct ids each task is asked about at most once. */
  function Sweep(tasks: seq<TaskId>, finished: TaskId -> bool): seq<TaskId> {
    if tasks == [] then []
    else if !finished(tasks[0]) then [tasks[0]] + Sweep(tasks[1..], finished)
    else if |tasks| == 1 then []
    else [tasks[1]] + Sweep(tasks[2..], finished)
  }

  /** list.remove: the first occurrence goes. */
  function Remove(tasks: seq<TaskId>, id: TaskId): seq<TaskId> {
    if tasks == [] then []
    else if tasks[0] == id then tasks[1..]
    else [tasks[0]] + Remove(tasks[1..], id)
  }

  lemma {:induction false} RemoveAt(tasks: seq<TaskId>, i: nat)
    requires i < |tasks| && DistinctIds(tasks)
    ensures Remove(tasks, tasks[i]) == tasks[..i] + tasks[i + 1..]
  {
    if i > 0 {
      assert tasks[i] != tasks[0];
      RemoveAt(tasks[1..], i - 1);
    }
  }

  /** Iterating at position i over what is left, the sweep is on its way to its result. */
  ghost predicate InSweep(whole: seq<TaskId>, tasks: seq<TaskId>, i: nat, finished: TaskId -> bool) {
    whole == if i <= |tasks| then tasks[..i] + Sweep(tasks[i..], finished) else tasks
  }

  lemma KeepOne(whole: seq<TaskId>, tasks: seq<TaskId>, i: nat, finished: TaskId -> bool)
    requires i < |tasks| && InSweep(whole, tasks, i, finished) && !finished(tasks[i])
    ensures InSweep(whole, tasks, i + 1, finished)
  {
    assert tasks[i..][1..] == tasks[i + 1..];
    var rest := Sweep(tasks[i + 1..], finished);
    assert tasks[..i] + ([tasks[i]] + rest) == tasks[..i + 1] + rest;
  }

  lemma RemoveOne(whole: seq<TaskId>, tasks: seq<TaskId>, i: nat, finished: TaskId -> bool)
    requires i < |tasks| && InSweep(whole, tasks, i, finished) && finished(tasks[i])
    ensures InSweep(whole, tasks[..i] + tasks[i + 1..], i + 1, finished)
  {
    var left, rest := tasks[..i] + tasks[i + 1..], tasks[i..];
    assert rest[0] == tasks[i];
    if i + 1 < |tasks| {
      assert rest[1] == tasks[i + 1];
      assert rest[2..] == tasks[i + 2..] == left[i + 1..];
      assert left[..i + 1] == tasks[..i] + [tasks[i + 1]];
      assert tasks[..i] + ([tasks[i + 1]] + Sweep(rest[2..], finished))
          == left[..i + 1] + Sweep(left[i + 1..], finished);
    } else {
      assert left == tasks[..i] && Sweep(rest, finished) == [];
    }
  }

  lemma RemoveFinished(whole: seq<TaskId>, tasks: seq<TaskId>, i: nat, finished: TaskId -> bool)
    requires i < |tasks| && DistinctIds(tasks) && InSweep(whole, tasks, i, finished) && finished(tasks[i])
    ensures var left := Remove(tasks, tasks[i]);
            DistinctIds(left) && |left| == |tasks| - 1 && InSweep(whole, left, i + 1, finished)
  {
    RemoveAt(tasks, i);
    RemoveOne(whole, tasks, i, finished);
  }

  method SweepInPlace(taskIds: seq<TaskId>, finished: TaskId -> bool) returns (tasks: seq<TaskId>)
    requires DistinctIds(taskIds)
    ensures tasks == Sweep(taskIds, finished)
  {
    tasks := taskIds;
    var i := 0;
    while i < |tasks|
      invariant DistinctIds(tasks) && InSweep(Sweep(taskIds, finished), tasks, i, finished)
      decreases |tasks| - i
    {
      var id := tasks[i];
      if finished(id) {
        RemoveFinished(Sweep(taskIds, finished), tasks, i, finished);
        tasks := Remove(tasks, id);
      } else {
        KeepOne(Sweep(taskIds, finished), tasks, i, finished);
      }
      i := i + 1;
    }
  }

  // ---------------------------------------------------------------------------
  // What a sweep does
  // ---------------------------------------------------------------------------

  function Unfinished(tasks: seq<TaskId>, finished: TaskId -> bool): seq<TaskId> {
    if tasks == [] then []
    else (if finished(tasks[0]) then [] else [tasks[0]]) + Unfinished(tasks[1..], finished)
  }

  function FinishedCount(tasks: seq<TaskId>, finished: TaskId -> bool): nat {
    if tasks == [] then 0 else (if finished(tasks[0]) then 1 else 0) + FinishedCount(tasks[1..], finished)
  }

  /** A sweep removes finished tasks only and keeps all others in order; it removes at least half of the
      finished tasks, hence one whenever there is one. */
  lemma {:induction false} SweepRemovesHalfOfFinished(tasks: seq<TaskId>, finished: TaskId -> bool)
    ensures Unfinished(Sweep(tasks, finished), finished) == Unfinished(tasks, finished)
    ensures FinishedCount(Sweep(tasks, finished), finished) <= FinishedCount(tasks, finished) / 2
    ensures |Sweep(tasks, finished)| - FinishedCount(Sweep(tasks, finished), finished)
         == |tasks| - FinishedCount(tasks, finished)
    ensures FinishedCount(tasks, finished) > 0 ==> |Sweep(tasks, finished)| < |tasks|
    decreases |tasks|
  {
    if tasks != [] {
      if !finished(tasks[0]) {
        SweepRemovesHalfOfFinished(tasks[1..], finished);
      } else if |tasks| > 1 {
        SweepRemovesHalfOfFinished(tasks[2..], finished);
        assert tasks[1..][1..] == tasks[2..];
        assert ([tasks[1]] + Sweep(tasks[2..], finished))[1..] == Sweep(tasks[2..], finished);
      }
    }
  }

  lemma {:induction false} SweepKeepsDistinct(tasks: seq<TaskId>, finished: TaskId -> bool)
    requires DistinctIds(tasks)
    ensures DistinctIds(Sweep(tasks, finished))
    ensures forall id | id in Sweep(tasks, finished) :: id in tasks
    decreases |tasks|
  {
    if tasks != [] {
      if !finished(tasks[0]) {
        SweepKeepsDistinct(tasks[1..], finished);
        assert tasks[0] !in tasks[1..];
        assert tasks[0] !in Sweep(tasks[1..], finished);
      } else if |tasks| > 1 {
        SweepKeepsDistinct(tasks[2..], finished);
        assert tasks[1] !in tasks[2..];
        assert tasks[1] !in Sweep(tasks[2..], finished);
      }
    }
  }

  /** When every task has finished a sweep removes exactly half of them, rounded up. */
  lemma {:induction false} SweepOfFinished(tasks: seq<TaskId>, finished: TaskId -> bool)
    requires forall i | 0 <= i < |tasks| :: finished(tasks[i])
    ensures |Sweep(tasks, finished)| == |tasks| / 2
    decreases |tasks|
  {
    if |tasks| > 1 {
      SweepOfFinished(tasks[2..], finished);
    }
  }

  // ---------------------------------------------------------------------------
  // How long the loop runs
  // ---------------------------------------------------------------------------

  /** The number of sweeps in which halving empties a list: one more than the binary logarithm. */
  function Halvings(n: nat): nat {
    if n == 0 then 0 else 1 + Halvings(n / 2)
  }

  function Pow2(k: nat): nat {
    if k == 0 then 1 else 2 * Pow2(k - 1)
  }

  lemma {:induction false} HalvingsIsLogarithm(n: nat)
    requires n > 0
    ensures Halvings(n) >= 1 && Pow2(Halvings(n) - 1) <= n < Pow2(Halvings(n))
  {
    if n > 1 {
      HalvingsIsLogarithm(n / 2);
    }
  }

  lemma {:induction false} HalvingsMonotone(m: nat, n: nat)
    requires m <= n
    ensures Halvings(m) <= Halvings(n)
  {
    if m > 0 {
      HalvingsMonotone(m / 2, n / 2);
    }
  }

  /** The tasks that r sweeps leave, when sweep number k gets the answers reports(k). */
  function Left(taskIds: seq<TaskId>, reports: nat -> TaskId -> bool, r: nat): seq<TaskId> {
    if r == 0 then taskIds else Sweep(Left(taskIds, reports, r - 1), reports(r - 1))
  }

  /** After the sweep number settled every sweep halves what is left. */
  ghost predicate OnTrack(taskIds: seq<TaskId>, reports: nat -> TaskId -> bool, settled: nat, sweeps: nat) {
    && |Left(taskIds, reports, sweeps)| <= |taskIds|
    && (sweeps >= settled ==>
          && sweeps + Halvings(|Left(taskIds, reports, sweeps)|)
             == settled + Halvings(|Left(taskIds, reports, settled)|)
          && |Left(taskIds, reports, settled)| <= |taskIds|)
  }

  lemma StaysOnTrack(taskIds: seq<TaskId>, reports: nat -> TaskId -> bool, settled: nat, sweeps: nat)
    requires OnTrack(taskIds, reports, settled, sweeps) && Left(taskIds, reports, sweeps) != []
    requires forall r: nat, id: TaskId | settled <= r :: reports(r)(id)
    ensures OnTrack(taskIds, reports, settled, sweeps + 1)
  {
    var tasks := Left(taskIds, reports, sweeps);
    SweepRemovesHalfOfFinished(tasks, reports(sweeps));
    if sweeps >= settled {
      SweepOfFinished(tasks, reports(sweeps));
    }
  }

  lemma ShrinksWhenSettled(tasks: seq<TaskId>, reports: nat -> TaskId -> bool, settled: nat, sweeps: nat)
    requires tasks != [] && forall r: nat, id: TaskId | settled <= r :: reports(r)(id)
    ensures sweeps >= settled ==> |Sweep(tasks, reports(sweeps))| < |tasks|
  {
    if sweeps >= settled {
      SweepOfFinished(tasks, reports(sweeps));
    }
  }

  lemma {:induction false} NothingLeftStays(taskIds: seq<TaskId>, reports: nat -> TaskId -> bool, r: nat, later: nat)
    requires r <= later && Left(taskIds, reports, r) == []
    ensures Left(taskIds, reports, later) == []
    decreases later
  {
    if r < later {
      NothingLeftStays(taskIds, reports, r, later - 1);
    }
  }

  /** The polling loop. It ends with the first sweep that leaves nothing. If from sweep number settled on every
      task is reported finished, and some are left then, it takes exactly one more than the binary logarithm of
      their number in further sweeps. */
  method Poll(taskIds: seq<TaskId>, reports: nat -> TaskId -> bool, ghost settled: nat) returns (sweeps: nat)
    requires DistinctIds(taskIds)
    requires forall r: nat, id: TaskId | settled <= r :: reports(r)(id)
    ensures Left(taskIds, reports, sweeps) == []
    ensures forall r | 0 <= r < sweeps :: Left(taskIds, reports, r) != []
    ensures Left(taskIds, reports, settled) != [] ==>
              sweeps == settled + Halvings(|Left(taskIds, reports, settled)|)
    ensures Left(taskIds, reports, settled) == [] ==> sweeps <= settled
    ensures sweeps <= settled + Halvings(|taskIds|)
  {
    var tasks := taskIds;
    sweeps := 0;
    while |tasks| > 0
      invariant DistinctIds(tasks) && tasks == Left(taskIds, reports, sweeps)
      invariant OnTrack(taskIds, reports, settled, sweeps)
      invariant forall r | 0 <= r < sweeps :: Left(taskIds, reports, r) != []
      decreases if sweeps < settled then settled - sweeps else 0, |tasks|
    {
      SweepKeepsDistinct(tasks, reports(sweeps));
      StaysOnTrack(taskIds, reports, settled, sweeps);
      ShrinksWhenSettled(tasks, reports, settled, sweeps);
      tasks := SweepInPlace(tasks, reports(sweeps));
      sweeps := sweeps + 1;
    }
    if sweeps < settled {
      NothingLeftStays(taskIds, reports, sweeps, settled);
    } else {
      HalvingsMonotone(|Left(taskIds, reports, settled)|, |taskIds|);
    }
  }
}
