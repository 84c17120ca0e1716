// The client's operations as they run, one job after the other; other threads step in between calls.

module ClientNodes {
  import opened Wrappers
  import opened ClientModel
  import opened ClientTheorems

  datatype ClientError = NoSuchJob | WrongPhase | CannotLeave | SubmissionBroken | NotReady | Undecodable | ZeroBatch

  /** The client after submitting jobs in order; one that fails does not keep the next from being submitted. */
  function AfterSubmits(c: Client, indices: seq<nat>, replies: seq<Reply>): Client
    requires |indices| <= |replies|
    decreases |indices|
  {
    if indices == [] then c else AfterSubmits(AfterSubmit(c, indices[0], replies[0]), indices[1..], replies[1..])
  }

  /** The jobs among them that are submitted, behind those already done. */
  function Succeeding(c: Client, indices: seq<nat>, replies: seq<Reply>, done: seq<nat>): seq<nat>
    requires |indices| <= |replies|
    decreases |indices|
  {
    if indices == [] then done
    else
      var done' := if CanSubmit(c, indices[0]) && replies[0].Answered? then done + [indices[0]] else done;
      Succeeding(AfterSubmit(c, indices[0], replies[0]), indices[1..], replies[1..], done')
  }

  /** The client after submitting jobs asynchronously up to the first that is not pending. */
  function AfterSubmitsAsync(c: Client, indices: seq<nat>): Client
    decreases |indices|
  {
    if indices == [] || !InPhase(c, indices[0], {Pending}) then c
    else AfterSubmitsAsync(AfterSubmitAsync(c, indices[0]), indices[1..])
  }

  /** Every job is pending when its turn comes; a job listed twice is not. */
  predicate AllTaken(c: Client, indices: seq<nat>)
    decreases |indices|
  {
    indices == []
    || (InPhase(c, indices[0], {Pending}) && AllTaken(AfterSubmitAsync(c, indices[0]), indices[1..]))
  }

  function AfterAddJobs(c: Client, specs: seq<nat>): Client
    decreases |specs|
  {
    if specs == [] then c else AfterAddJobs(AfterAddJob(c, specs[0]), specs[1..])
  }

  lemma {:induction false} SubmitsInTwo(c: Client, indices: seq<nat>, replies: seq<Reply>, done: seq<nat>, k: nat)
    requires k <= |indices| <= |replies|
    ensures AfterSubmits(c, indices, replies) ==
              AfterSubmits(AfterSubmits(c, indices[..k], replies), indices[k..], replies[k..])
    ensures Succeeding(c, indices, replies, done) ==
              Succeeding(AfterSubmits(c, indices[..k], replies), indices[k..], replies[k..],
                         Succeeding(c, indices[..k], replies, done))
    decreases k
  {
    if k > 0 {
      var c' := AfterSubmit(c, indices[0], replies[0]);
      var done' := if CanSubmit(c, indices[0]) && replies[0].Answered? then done + [indices[0]] else done;
      SubmitsInTwo(c', indices[1..], replies[1..], done', k - 1);
      assert indices[1..][..k - 1] == indices[..k][1..];
      assert indices[1..][k - 1..] == indices[k..] && replies[1..][k - 1..] == replies[k..];
    }
  }

  class NvIngestClient {
    var currentIndex: nat
    var jobStates: map<nat, Job>
    var specs: seq<Spec>
    var lists: seq<seq<Task>>
    var futures: seq<Future>
    var log: seq<Attempt>

    function View(): Client
      reads this
    {
      Client(currentIndex, jobStates, specs, lists, futures, log)
    }

    ghost predicate Valid()
      reads this
    {
      RefsOk(View())
    }

    constructor ()
      ensures Valid() && View() == EMPTY
    {
      currentIndex, jobStates, specs, lists, futures, log := 0, map[], [], [], [], [];
    }

    method GenerateJobIndex() returns (index: nat)
      modifies this`currentIndex
      ensures index == old(currentIndex) && currentIndex == index + 1
    {
      index := currentIndex;
      currentIndex := currentIndex + 1;
    }

    method GetAndCheckJobState(index: nat, required: set<Phase>) returns (r: Result<Job, ClientError>)
      ensures r == if index !in jobStates then Err(NoSuchJob)
                   else if required != {} && jobStates[index].phase !in required then Err(WrongPhase)
                   else Ok(jobStates[index])
    {
      if index !in jobStates {
        return Err(NoSuchJob);
      }
      if required != {} && jobStates[index].phase !in required {
        return Err(WrongPhase);
      }
      return Ok(jobStates[index]);
    }

    method SetPhase(index: nat, phase: Phase) returns (ok: bool)
      requires index in jobStates
      modifies this`jobStates
      ensures ok == CanBecome(old(jobStates[index].phase), phase)
      ensures jobStates ==
              if ok then old(jobStates)[index := old(jobStates[index]).(phase := phase)] else old(jobStates)
    {
      var current := jobStates[index].phase;
      if Terminal(current) {
        return false;
      }
      if Rank(phase) < Rank(current) {
        return false;
      }
      jobStates := jobStates[index := jobStates[index].(phase := phase)];
      return true;
    }

    method AddSingleJob(spec: nat) returns (index: nat)
      requires Valid() && spec < |specs|
      modifies this`currentIndex, this`jobStates
      ensures Valid() && View() == AfterAddJob(old(View()), spec)
      ensures index == old(currentIndex)
    {
      index := GenerateJobIndex();
      jobStates := jobStates[index := Job(spec, Pending)];
    }

    /** A batch of jobs gets consecutive indexes. */
    method AddJobs(batch: seq<nat>) returns (indices: seq<nat>)
      requires Valid() && forall k :: 0 <= k < |batch| ==> batch[k] < |specs|
      modifies this`currentIndex, this`jobStates
      ensures Valid() && View() == AfterAddJobs(old(View()), batch)
      ensures |indices| == |batch| && forall k :: 0 <= k < |batch| ==> indices[k] == old(currentIndex) + k
    {
      indices := [];
      for k := 0 to |batch|
        invariant Valid()
        invariant AfterAddJobs(old(View()), batch) == AfterAddJobs(View(), batch[k..])
        invariant currentIndex == old(currentIndex) + k
        invariant |indices| == k && forall j :: 0 <= j < k ==> indices[j] == old(currentIndex) + j
      {
        assert batch[k..][1..] == batch[k + 1..];
        var index := AddSingleJob(batch[k]);
        indices := indices + [index];
      }
    }

    method AddTask(index: nat, task: Task) returns (r: Result<(), ClientError>)
      requires Valid()
      modifies this`lists
      ensures Valid() && View() == AfterAddTask(old(View()), index, task)
      ensures r.Ok? <==> InPhase(old(View()), index, {Pending})
    {
      var job := GetAndCheckJobState(index, {Pending});
      if job.Err? {
        return Err(job.error);
      }
      var list := specs[job.value.spec].list;
      lists := lists[list := lists[list] + WithCompanions(task)];
      return Ok(());
    }

    /** One submission, with the reply it gets. */
    method SubmitOne(index: nat, reply: Reply) returns (r: Result<(), ClientError>)
      requires Valid()
      modifies this`jobStates, this`specs, this`log
      ensures Valid() && View() == AfterSubmit(old(View()), index, reply)
      ensures r.Ok? <==> CanSubmit(old(View()), index) && reply.Answered?
    {
      ghost var before := View();
      SubmitKeepsRefs(before, index, reply);
      var job := GetAndCheckJobState(index, {Pending, SubmittedAsync});
      if job.Err? {
        return Err(job.error);
      }
      var spec := job.value.spec;
      log := log + [Attempt(index, spec, specs[spec].Payload(), lists[specs[spec].list], reply)];
      match reply
      case Answered(id, _) =>
        var moved := SetPhase(index, Submitted);
        specs := specs[spec := specs[spec].(jobId := Some(id.GetOr("")))];
        specs := specs[spec := specs[spec].(released := true)];
        return Ok(());
      case Broken(_) =>
        var moved := SetPhase(index, Failed);
        return Err(SubmissionBroken);
    }

    /** A batch is submitted job by job; errors are collected and reported at the end. */
    method SubmitBatch(batch: seq<nat>, replies: seq<Reply>, done: seq<nat>) returns (results: seq<nat>)
      requires Valid() && |batch| <= |replies|
      modifies this`jobStates, this`specs, this`log
      ensures Valid() && View() == AfterSubmits(old(View()), batch, replies)
      ensures results == Succeeding(old(View()), batch, replies, done)
    {
      results := done;
      for k := 0 to |batch|
        invariant Valid()
        invariant AfterSubmits(old(View()), batch, replies) == AfterSubmits(View(), batch[k..], replies[k..])
        invariant Succeeding(old(View()), batch, replies, done)
               == Succeeding(View(), batch[k..], replies[k..], results)
      {
        assert batch[k..][1..] == batch[k + 1..] && replies[k..][1..] == replies[k + 1..];
        var r := SubmitOne(batch[k], replies[k]);
        if r.Ok? {
          results := results + [batch[k]];
        }
      }
    }

    /** All jobs are submitted, in batches whose size makes no difference as long as it is positive. A batch size
        of zero is an error, and with a negative one nothing is submitted and nothing reported. */
    method SubmitJob(indices: seq<nat>, batchSize: int, replies: seq<Reply>)
        returns (r: Result<seq<nat>, ClientError>)
      requires Valid() && |indices| <= |replies|
      modifies this`jobStates, this`specs, this`log
      ensures Valid()
      ensures View() == if batchSize > 0 then AfterSubmits(old(View()), indices, replies) else old(View())
      ensures batchSize == 0 ==> r == Err(ZeroBatch)
      ensures batchSize < 0 ==> r == Ok([])
      ensures batchSize > 0 ==>
                var results := Succeeding(old(View()), indices, replies, []);
                r == if |results| == |indices| then Ok(results) else Err(SubmissionBroken)
    {
      if batchSize == 0 {
        return Err(ZeroBatch);
      }
      var results := [];
      if batchSize < 0 {
        return Ok(results);
      }
      var start := 0;
      while start < |indices|
        invariant start <= |indices|
        invariant Valid()
        invariant AfterSubmits(old(View()), indices, replies)
               == AfterSubmits(View(), indices[start..], replies[start..])
        invariant Succeeding(old(View()), indices, replies, [])
               == Succeeding(View(), indices[start..], replies[start..], results)
      {
        start, results := NextBatch(indices, batchSize, replies, start, results);
      }
      return if |results| == |indices| then Ok(results) else Err(SubmissionBroken);
    }

    method NextBatch(indices: seq<nat>, batchSize: nat, replies: seq<Reply>, start: nat, done: seq<nat>)
        returns (end: nat, results: seq<nat>)
      requires Valid() && start < |indices| <= |replies| && batchSize > 0
      modifies this`jobStates, this`specs, this`log
      ensures Valid() && start < end <= |indices|
      ensures AfterSubmits(old(View()), indices[start..], replies[start..])
           == AfterSubmits(View(), indices[end..], replies[end..])
      ensures Succeeding(old(View()), indices[start..], replies[start..], done)
           == Succeeding(View(), indices[end..], replies[end..], results)
    {
      end := if start + batchSize < |indices| then start + batchSize else |indices|;
      SubmitsInTwo(View(), indices[start..], replies[start..], done, end - start);
      assert indices[start..][..end - start] == indices[start..end];
      assert indices[start..][end - start..] == indices[end..] && replies[start..][end - start..] == replies[end..];
      results := SubmitBatch(indices[start..end], replies[start..], done);
    }

    /** The jobs are marked and queued for the workers, up to the first that is not pending. */
    method SubmitJobAsync(indices: seq<nat>) returns (r: Result<(), ClientError>)
      requires Valid()
      modifies this`jobStates, this`futures
      ensures Valid() && View() == AfterSubmitsAsync(old(View()), indices)
      ensures r.Ok? <==> AllTaken(old(View()), indices)
    {
      for k := 0 to |indices|
        invariant Valid()
        invariant AfterSubmitsAsync(old(View()), indices) == AfterSubmitsAsync(View(), indices[k..])
        invariant AllTaken(old(View()), indices) == AllTaken(View(), indices[k..])
      {
        assert indices[k..][1..] == indices[k + 1..];
        var job := GetAndCheckJobState(indices[k], {Pending});
        if job.Err? {
          return Err(job.error);
        }
        var moved := SetPhase(indices[k], SubmittedAsync);
        futures := futures + [Queued(indices[k])];
      }
      return Ok(());
    }

    /** A worker's turn: it submits the job it was queued for. */
    method Work(future: nat, reply: Reply) returns (r: Result<seq<nat>, ClientError>)
      requires Valid() && future < |futures| && futures[future].Queued?
      modifies this`jobStates, this`specs, this`log, this`futures
      ensures Valid() && View() == AfterWork(old(View()), future, reply)
      ensures r.Ok? <==> CanSubmit(old(View()), old(futures[future].index)) && reply.Answered?
    {
      var index := futures[future].index;
      r := SubmitJob([index], 10, [reply]);
      assert View() == AfterSubmit(old(View()), index, reply);
      futures := futures[future := Done(index)];
    }

    /** What is left to do when a submission that was waited for is done. */
    method Settle(future: nat) returns (r: Result<(), ClientError>)
      requires Valid() && future < |futures| && futures[future].Done? && futures[future].index in jobStates
      modifies this`jobStates
      ensures Valid() && View() == AfterSettle(old(View()), future)
      ensures r.Ok? <==> CanBecome(old(jobStates[futures[future].index].phase), Submitted)
      ensures PhasesFit(old(View())) && FuturesFit(old(View())) ==> View() == old(View())
    {
      ghost var before := View();
      var moved := SetPhase(futures[future].index, Submitted);
      if PhasesFit(before) && FuturesFit(before) {
        SettleChangesNothing(before, future);
      }
      return if moved then Ok(()) else Err(CannotLeave);
    }

    /** Fetching asks under the specification's id. A job that is ready is forgotten, also when its result cannot be
        decoded; otherwise all stays. */
    method FetchJobResult(index: nat, ready: bool, decodable: bool) returns (r: Result<Option<string>, ClientError>)
      requires Valid()
      modifies this`jobStates
      ensures Valid() && View() == AfterFetch(old(View()), index, ready)
      ensures r.Ok? <==> InPhase(old(View()), index, {Submitted, SubmittedAsync}) && ready && decodable
      ensures r.Ok? ==> HasSpec(old(View()), index) && r.value == SpecOf(old(View()), index).jobId
      ensures InPhase(old(View()), index, {Submitted, SubmittedAsync}) && !r.Ok? ==>
                r.error == if ready then Undecodable else NotReady
    {
      var job := GetAndCheckJobState(index, {Submitted, SubmittedAsync});
      if job.Err? {
        return Err(job.error);
      }
      if !ready {
        return Err(NotReady);
      }
      var moved := SetPhase(index, Processing);
      jobStates := jobStates - {index};
      return if decodable then Ok(specs[job.value.spec].jobId) else Err(Undecodable);
    }
  }
}
