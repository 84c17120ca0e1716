// What holds of the client's jobs in every run: no index is used twice, no job is submitted twice, and what a
// job sends and fetches is its own unless specifications are shared.

module ClientTheorems {
  import opened Wrappers
  import opened ClientModel

  // ---------------------------------------------------------------------------
  // Invariant
  // ---------------------------------------------------------------------------

  predicate Attempted(c: Client, index: nat) {
    exists p :: 0 <= p < |c.log| && c.log[p].index == index
  }

  /** Everything refers to what exists, and indexes are below the next one. */
  ghost predicate RefsOk(c: Client) {
    && (forall i :: i in c.jobs ==> i < c.next && c.jobs[i].spec < |c.specs|)
    && (forall s :: 0 <= s < |c.specs| ==> c.specs[s].list < |c.lists|)
    && (forall f :: 0 <= f < |c.futures| ==> c.futures[f].index < c.next)
    && (forall p :: 0 <= p < |c.log| ==> c.log[p].index < c.next && c.log[p].spec < |c.specs|)
  }

  ghost predicate AttemptedOnce(c: Client) {
    forall p, q :: 0 <= p < q < |c.log| ==> c.log[p].index != c.log[q].index
  }

  /** What a job's phase says about its submission. */
  predicate PhaseFits(phase: Phase, attempts: seq<Attempt>, index: nat, spec: nat) {
    match phase
    case Pending => forall p :: 0 <= p < |attempts| ==> attempts[p].index != index
    case SubmittedAsync => forall p :: 0 <= p < |attempts| ==> attempts[p].index != index
    case Submitted => exists p :: 0 <= p < |attempts| && attempts[p].index == index
                                  && attempts[p].spec == spec && attempts[p].reply.Answered?
    case Failed => exists p :: 0 <= p < |attempts| && attempts[p].index == index
                               && attempts[p].spec == spec && attempts[p].reply.Broken?
    case _ => false
  }

  ghost predicate PhasesFit(c: Client) {
    forall i :: i in c.jobs ==> PhaseFits(c.jobs[i].phase, c.log, i, c.jobs[i].spec)
  }

  /** A queued job is no longer pending, and a done one not even waiting. */
  ghost predicate FuturesFit(c: Client) {
    forall f :: 0 <= f < |c.futures| && c.futures[f].index in c.jobs ==>
      var phase := c.jobs[c.futures[f].index].phase;
      !phase.Pending? && (c.futures[f].Done? ==> !phase.SubmittedAsync?)
  }

  /** The id of the last answered attempt with a specification. */
  function LastAnswer(log: seq<Attempt>, spec: nat): Option<string> {
    if log == [] then None
    else
      var last := log[|log| - 1];
      if last.spec == spec && last.reply.Answered? then Some(last.reply.id.GetOr(""))
      else LastAnswer(log[..|log| - 1], spec)
  }

  /** A specification has the id of its last answer, and has its payload until then. */
  ghost predicate SpecsFit(c: Client) {
    forall s :: 0 <= s < |c.specs| ==>
      c.specs[s].jobId == LastAnswer(c.log, s) && c.specs[s].released == LastAnswer(c.log, s).Some?
  }

  ghost predicate Inv(c: Client) {
    RefsOk(c) && AttemptedOnce(c) && PhasesFit(c) && FuturesFit(c) && SpecsFit(c)
  }

  lemma SubmitKeepsRefs(c: Client, index: nat, reply: Reply)
    requires RefsOk(c)
    ensures RefsOk(AfterSubmit(c, index, reply))
  {
  }

  lemma RefsKept(c: Client, action: Action)
    requires RefsOk(c)
    ensures RefsOk(Apply(c, action))
  {
    if action.Work? && action.future < |c.futures| {
      SubmitKeepsRefs(c, c.futures[action.future].index, action.reply);
    } else if action.Submit? {
      SubmitKeepsRefs(c, action.index, action.reply);
    }
  }

  lemma SubmitIsFirst(c: Client, index: nat)
    requires PhasesFit(c) && CanSubmit(c, index)
    ensures !Attempted(c, index)
  {
    assert PhaseFits(c.jobs[index].phase, c.log, index, c.jobs[index].spec);
  }

  lemma SubmitKeepsAttempts(c: Client, index: nat, reply: Reply)
    requires PhasesFit(c) && AttemptedOnce(c)
    ensures AttemptedOnce(AfterSubmit(c, index, reply))
  {
    if CanSubmit(c, index) {
      SubmitIsFirst(c, index);
    }
  }

  lemma AttemptsKept(c: Client, action: Action)
    requires PhasesFit(c) && AttemptedOnce(c)
    ensures AttemptedOnce(Apply(c, action))
  {
    if action.Work? && action.future < |c.futures| {
      SubmitKeepsAttempts(c, c.futures[action.future].index, action.reply);
    } else if action.Submit? {
      SubmitKeepsAttempts(c, action.index, action.reply);
    }
  }

  lemma FitsAfterOther(phase: Phase, log: seq<Attempt>, next: Attempt, index: nat, spec: nat)
    requires PhaseFits(phase, log, index, spec) && next.index != index
    ensures PhaseFits(phase, log + [next], index, spec)
  {
    if phase.Submitted? || phase.Failed? {
      var p :| 0 <= p < |log| && log[p].index == index && log[p].spec == spec
               && (if phase.Submitted? then log[p].reply.Answered? else log[p].reply.Broken?);
      assert (log + [next])[p] == log[p];
    }
  }

  lemma FitsAfterOwn(log: seq<Attempt>, next: Attempt)
    ensures PhaseFits(if next.reply.Answered? then Submitted else Failed, log + [next], next.index, next.spec)
  {
    assert (log + [next])[|log|] == next;
  }

  lemma SubmitKeepsPhases(c: Client, index: nat, reply: Reply)
    requires PhasesFit(c)
    ensures PhasesFit(AfterSubmit(c, index, reply))
  {
    if CanSubmit(c, index) {
      var c', next := AfterSubmit(c, index, reply), AttemptOf(c, index, reply);
      forall i | i in c'.jobs ensures PhaseFits(c'.jobs[i].phase, c'.log, i, c'.jobs[i].spec) {
        if i == index {
          FitsAfterOwn(c.log, next);
        } else {
          FitsAfterOther(c.jobs[i].phase, c.log, next, i, c.jobs[i].spec);
        }
      }
    }
  }

  /** Waiting for a submission changes no phase: it only confirms what the worker has already done. */
  lemma SettleChangesNothing(c: Client, future: nat)
    requires PhasesFit(c) && FuturesFit(c)
    ensures AfterSettle(c, future) == c
  {
    if future < |c.futures| && c.futures[future].index in c.jobs {
      var index := c.futures[future].index;
      var job := c.jobs[index];
      assert PhaseFits(job.phase, c.log, index, job.spec);
      assert job.phase.Submitted? ==> c.jobs == c.jobs[index := job.(phase := Submitted)];
    }
  }

  lemma AddJobKeepsPhases(c: Client, spec: nat)
    requires RefsOk(c) && PhasesFit(c)
    ensures PhasesFit(AfterAddJob(c, spec))
  {
  }

  lemma AsyncKeepsPhases(c: Client, index: nat)
    requires PhasesFit(c)
    ensures PhasesFit(AfterSubmitAsync(c, index))
  {
  }

  lemma PhasesKept(c: Client, action: Action)
    requires RefsOk(c) && PhasesFit(c) && FuturesFit(c)
    ensures PhasesFit(Apply(c, action))
  {
    match action
    case AddJob(spec) => AddJobKeepsPhases(c, spec);
    case Submit(index, reply) => SubmitKeepsPhases(c, index, reply);
    case SubmitAsync(index) => AsyncKeepsPhases(c, index);
    case Work(future, reply) =>
      if future < |c.futures| {
        SubmitKeepsPhases(c, c.futures[future].index, reply);
      }
    case Settle(future) => SettleChangesNothing(c, future);
    case _ =>
  }

  lemma SubmitKeepsFutures(c: Client, index: nat, reply: Reply)
    requires FuturesFit(c)
    ensures FuturesFit(AfterSubmit(c, index, reply))
    ensures RefsOk(c) ==> !CanSubmit(AfterSubmit(c, index, reply), index)
  {
  }

  lemma FuturesKept(c: Client, action: Action)
    requires RefsOk(c) && PhasesFit(c) && FuturesFit(c)
    ensures FuturesFit(Apply(c, action))
  {
    match action
    case Submit(index, reply) => SubmitKeepsFutures(c, index, reply);
    case Work(future, reply) =>
      if future < |c.futures| {
        SubmitKeepsFutures(c, c.futures[future].index, reply);
        SubmitKeepsRefs(c, c.futures[future].index, reply);
      }
    case Settle(future) => SettleChangesNothing(c, future);
    case _ =>
  }

  lemma LastAnswerOf(log: seq<Attempt>, next: Attempt, spec: nat)
    ensures LastAnswer(log + [next], spec) ==
              if next.spec == spec && next.reply.Answered? then Some(next.reply.id.GetOr(""))
              else LastAnswer(log, spec)
  {
    assert (log + [next])[..|log|] == log;
  }

  lemma SubmitKeepsSpecs(c: Client, index: nat, reply: Reply)
    requires SpecsFit(c)
    ensures SpecsFit(AfterSubmit(c, index, reply))
  {
    if CanSubmit(c, index) {
      forall s | 0 <= s < |c.specs|
        ensures LastAnswer(AfterSubmit(c, index, reply).log, s) ==
                  if c.jobs[index].spec == s && reply.Answered? then Some(reply.id.GetOr(""))
                  else LastAnswer(c.log, s)
      {
        LastAnswerOf(c.log, AttemptOf(c, index, reply), s);
      }
    }
  }

  lemma {:induction false} NoAnswer(log: seq<Attempt>, spec: nat)
    requires forall p :: 0 <= p < |log| ==> log[p].spec != spec || !log[p].reply.Answered?
    ensures LastAnswer(log, spec) == None
  {
    if log != [] {
      NoAnswer(log[..|log| - 1], spec);
    }
  }

  lemma SpecsKept(c: Client, action: Action)
    requires RefsOk(c) && SpecsFit(c)
    ensures SpecsFit(Apply(c, action))
  {
    match action
    case MakeSpec(_, _) => NoAnswer(c.log, |c.specs|);
    case Submit(index, reply) => SubmitKeepsSpecs(c, index, reply);
    case Work(future, reply) =>
      if future < |c.futures| {
        SubmitKeepsSpecs(c, c.futures[future].index, reply);
      }
    case _ =>
  }

  lemma InvKept(c: Client, action: Action)
    requires Inv(c)
    ensures Inv(Apply(c, action))
  {
    RefsKept(c, action);
    AttemptsKept(c, action);
    PhasesKept(c, action);
    FuturesKept(c, action);
    SpecsKept(c, action);
  }

  lemma {:induction false} InvAlways(c: Client, actions: seq<Action>)
    requires Inv(c)
    ensures Inv(Run(c, actions))
    decreases |actions|
  {
    if actions != [] {
      InvKept(c, actions[0]);
      InvAlways(Apply(c, actions[0]), actions[1..]);
    }
  }

  // ---------------------------------------------------------------------------
  // Submission
  // ---------------------------------------------------------------------------

  ghost predicate Reachable(c: Client) {
    exists actions :: Run(EMPTY, actions) == c
  }

  lemma ReachableInv(c: Client)
    requires Reachable(c)
    ensures Inv(c)
  {
    var actions :| Run(EMPTY, actions) == c;
    InvAlways(EMPTY, actions);
  }

  /** How often a job has arrived at the broker. */
  function Receipts(log: seq<Attempt>, index: nat): nat {
    if log == [] then 0
    else (if log[0].index == index then log[0].reply.arrivals else 0) + Receipts(log[1..], index)
  }

  lemma {:induction false} NoReceipt(log: seq<Attempt>, index: nat)
    requires forall p :: 0 <= p < |log| ==> log[p].index != index
    ensures Receipts(log, index) == 0
  {
    if log != [] {
      NoReceipt(log[1..], index);
    }
  }

  lemma {:induction false} ReceiptOfAttempt(log: seq<Attempt>, p: nat)
    requires forall p, q :: 0 <= p < q < |log| ==> log[p].index != log[q].index
    requires p < |log|
    ensures Receipts(log, log[p].index) == log[p].reply.arrivals
  {
    if p == 0 {
      NoReceipt(log[1..], log[0].index);
    } else {
      ReceiptOfAttempt(log[1..], p - 1);
    }
  }

  /** In every run, whatever the order of additions, submissions, worker steps and fetches, a job is handed to the
      message client at most once. While it is pending or waits for a worker, it has not been handed over at all
      and the broker does not have it; once it counts as submitted or failed, it has been handed over once, with
      an answer or without, and has arrived as often as that one call delivered it. (A job that fails before the call,
      because it cannot be written as JSON, counts as handed over without an answer or an arrival.) */
  lemma SubmittedAtMostOnce(c: Client, index: nat)
    requires Reachable(c)
    ensures forall p, q :: 0 <= p < q < |c.log| ==> c.log[p].index != c.log[q].index
    ensures InPhase(c, index, {Pending, SubmittedAsync}) ==> !Attempted(c, index) && Receipts(c.log, index) == 0
    ensures InPhase(c, index, {Submitted, Failed}) ==>
              exists p :: 0 <= p < |c.log| && c.log[p].index == index
                          && c.log[p].reply.Answered? == c.jobs[index].phase.Submitted?
                          && Receipts(c.log, index) == c.log[p].reply.arrivals
  {
    ReachableInv(c);
    if Attempted(c, index) {
      var p :| 0 <= p < |c.log| && c.log[p].index == index;
      ReceiptOfAttempt(c.log, p);
    } else {
      NoReceipt(c.log, index);
    }
    if index in c.jobs {
      assert PhaseFits(c.jobs[index].phase, c.log, index, c.jobs[index].spec);
    }
  }

  /** So every job arrives at most once exactly if no call of the message client delivered its job twice: the
      client adds no repetition to those the message client makes on its own. */
  lemma ReceivedAtMostOnceIff(c: Client)
    requires Reachable(c)
    ensures (forall index: nat :: Receipts(c.log, index) <= 1) <==>
              (forall p :: 0 <= p < |c.log| ==> c.log[p].reply.arrivals <= 1)
  {
    ReachableInv(c);
    if p :| 0 <= p < |c.log| && c.log[p].reply.arrivals > 1 {
      ReceiptOfAttempt(c.log, p);
      var index: nat := c.log[p].index;
      assert Receipts(c.log, index) > 1;
    } else {
      forall index: nat ensures Receipts(c.log, index) <= 1 {
        if Attempted(c, index) {
          var p :| 0 <= p < |c.log| && c.log[p].index == index;
          ReceiptOfAttempt(c.log, p);
        } else {
          NoReceipt(c.log, index);
        }
      }
    }
  }

  /** And so it can be: a job whose call is repeated inside the message client arrives twice. */
  lemma JobArrivesTwice(content: string, id: string) returns (c: Client)
    ensures Reachable(c) && InPhase(c, 0, {Submitted}) && |c.log| == 1 && Receipts(c.log, 0) == 2
  {
    var add, submit := AddJob(0), Submit(0, Answered(Some(id), 2));
    var one := Apply(EMPTY, MakeSpec(content, None));
    RunTwo(one, [add, submit]);
    assert [MakeSpec(content, None), add, submit][1..] == [add, submit];
    assert Run(EMPTY, [MakeSpec(content, None), add, submit]) == Run(one, [add, submit]);
    c := Apply(Apply(one, add), submit);
    ReceiptOfAttempt(c.log, 0);
  }

  /** A job that counts as submitted under an id has arrived at the broker. */
  lemma SubmittedWithIdIsReceived(c: Client, index: nat)
    requires Reachable(c) && InPhase(c, index, {Submitted})
    requires forall p :: 0 <= p < |c.log| && c.log[p].index == index && c.log[p].reply.Answered? ==>
               c.log[p].reply.id.Some?
    ensures Receipts(c.log, index) >= 1
  {
    SubmittedAtMostOnce(c, index);
  }

  /** Without an id nothing follows: of two jobs that count as submitted and are answered without one, the first has
      never arrived and the second has; both are asked for under an empty id. */
  lemma SubmittedWithoutIdSaysNothing(content: string) returns (c: Client)
    ensures Reachable(c)
    ensures InPhase(c, 0, {Submitted}) && InPhase(c, 1, {Submitted})
    ensures HasSpec(c, 0) && SpecOf(c, 0).jobId == Some("") && HasSpec(c, 1) && SpecOf(c, 1).jobId == Some("")
    ensures Receipts(c.log, 0) == 0 && Receipts(c.log, 1) == 1
  {
    var first := [MakeSpec(content, None), AddJob(0), MakeSpec(content, None), AddJob(1)];
    var last := [Submit(0, Answered(None, 0)), Submit(1, Answered(None, 1))];
    var two := Apply(Apply(Apply(Apply(EMPTY, first[0]), first[1]), first[2]), first[3]);
    assert two.jobs == map[0 := Job(0, Pending), 1 := Job(1, Pending)];
    var one := Apply(two, last[0]);
    assert one.jobs == map[0 := Job(0, Submitted), 1 := Job(1, Pending)];
    c := Apply(one, last[1]);
    ReceiptOfAttempt(c.log, 0);
    ReceiptOfAttempt(c.log, 1);
    RunFour(EMPTY, first);
    RunTwo(two, last);
    RunsJoin(EMPTY, first, last);
  }

  lemma {:induction false} RunsJoin(c: Client, a: seq<Action>, b: seq<Action>)
    ensures Run(c, a + b) == Run(Run(c, a), b)
    decreases |a|
  {
    if a == [] {
      assert a + b == b;
    } else {
      assert (a + b)[1..] == a[1..] + b;
      RunsJoin(Apply(c, a[0]), a[1..], b);
    }
  }

  lemma RunTwo(c: Client, actions: seq<Action>)
    requires |actions| == 2
    ensures Run(c, actions) == Apply(Apply(c, actions[0]), actions[1])
  {
    var next := Apply(c, actions[0]);
    assert actions[1..][0] == actions[1] && actions[1..][1..] == [];
    assert Run(next, actions[1..]) == Run(Apply(next, actions[1]), []);
  }

  lemma RunFour(c: Client, actions: seq<Action>)
    requires |actions| == 4
    ensures Run(c, actions) == Apply(Apply(Apply(Apply(c, actions[0]), actions[1]), actions[2]), actions[3])
  {
    assert actions[1..][1..] == actions[2..];
    RunTwo(Apply(Apply(c, actions[0]), actions[1]), actions[2..]);
  }

  // ---------------------------------------------------------------------------
  // What a run cannot undo
  // ---------------------------------------------------------------------------

  /** What is past stays: the log grows at its end, indexes and specifications are not taken back, a job keeps its
      specification and never goes back to an earlier phase, and a failed one stays failed. */
  ghost predicate Continues(c: Client, d: Client) {
    && c.next <= d.next && c.log <= d.log && |c.specs| <= |d.specs| && |c.lists| <= |d.lists|
    && (forall s :: 0 <= s < |c.specs| ==> d.specs[s].list == c.specs[s].list)
    && (forall i :: i in d.jobs && i < c.next ==> i in c.jobs)
    && (forall i :: i in c.jobs && i in d.jobs ==>
          d.jobs[i].spec == c.jobs[i].spec
          && (d.jobs[i].phase == c.jobs[i].phase || CanBecome(c.jobs[i].phase, d.jobs[i].phase)))
    && (forall i :: i in c.jobs && c.jobs[i].phase.Failed? ==> i in d.jobs)
  }

  lemma SubmitContinues(c: Client, index: nat, reply: Reply)
    requires RefsOk(c)
    ensures Continues(c, AfterSubmit(c, index, reply))
  {
  }

  lemma StepContinues(c: Client, action: Action)
    requires RefsOk(c)
    ensures Continues(c, Apply(c, action))
  {
    match action
    case Submit(index, reply) => SubmitContinues(c, index, reply);
    case Work(future, reply) =>
      if future < |c.futures| {
        SubmitContinues(c, c.futures[future].index, reply);
      }
    case _ =>
  }

  lemma ContinuesOn(c: Client, d: Client, e: Client)
    requires RefsOk(c) && Continues(c, d) && Continues(d, e)
    ensures Continues(c, e)
  {
    assert c.log <= e.log;
    forall i | i in c.jobs && i in e.jobs
      ensures e.jobs[i].spec == c.jobs[i].spec
      ensures e.jobs[i].phase == c.jobs[i].phase || CanBecome(c.jobs[i].phase, e.jobs[i].phase)
    {
      assert i in d.jobs;
    }
  }

  lemma {:induction false} RunContinues(c: Client, actions: seq<Action>)
    requires RefsOk(c)
    ensures Continues(c, Run(c, actions)) && RefsOk(Run(c, actions))
    decreases |actions|
  {
    if actions != [] {
      var d := Apply(c, actions[0]);
      StepContinues(c, actions[0]);
      RefsKept(c, actions[0]);
      RunContinues(d, actions[1..]);
      ContinuesOn(c, d, Run(d, actions[1..]));
    }
  }

  /** An index is given once: what a new job gets has never been given to another. */
  lemma IndexesAreFresh(c: Client, actions: seq<Action>, spec: nat)
    requires Reachable(c) && spec < |c.specs|
    ensures c.next in AfterAddJob(c, spec).jobs && c.next !in c.jobs && !Attempted(c, c.next)
    ensures Run(AfterAddJob(c, spec), actions).next > c.next
  {
    ReachableInv(c);
    RefsKept(c, AddJob(spec));
    RunContinues(AfterAddJob(c, spec), actions);
  }

  /** A failed job stays failed, however the run goes on, and is never handed over again. */
  lemma FailedStaysFailed(c: Client, actions: seq<Action>, index: nat)
    requires Reachable(c) && InPhase(c, index, {Failed})
    ensures InPhase(Run(c, actions), index, {Failed})
    ensures forall p :: |c.log| <= p < |Run(c, actions).log| ==> Run(c, actions).log[p].index != index
  {
    ReachableInv(c);
    RunContinues(c, actions);
    InvAlways(c, actions);
    var d := Run(c, actions);
    assert PhaseFits(Failed, c.log, index, c.jobs[index].spec);
    var p :| 0 <= p < |c.log| && c.log[p].index == index;
    assert d.log[p] == c.log[p];
  }

  // ---------------------------------------------------------------------------
  // What is shared
  // ---------------------------------------------------------------------------

  /** A job is fetched under the id of the last answer that any job with its specification got. */
  lemma FetchesLastAnswer(c: Client, index: nat)
    requires Reachable(c) && InPhase(c, index, {Submitted})
    ensures HasSpec(c, index) && SpecOf(c, index).jobId.Some?
    ensures SpecOf(c, index).jobId == LastAnswer(c.log, c.jobs[index].spec)
  {
    ReachableInv(c);
    assert PhaseFits(Submitted, c.log, index, c.jobs[index].spec);
    var p :| 0 <= p < |c.log| && c.log[p].spec == c.jobs[index].spec && c.log[p].reply.Answered?;
    AnswerSeen(c.log, c.jobs[index].spec, p);
  }

  lemma {:induction false} AnswerSeen(log: seq<Attempt>, spec: nat, p: nat)
    requires p < |log| && log[p].spec == spec && log[p].reply.Answered?
    ensures LastAnswer(log, spec).Some?
    ensures (forall q :: p < q < |log| ==> log[q].spec != spec || !log[q].reply.Answered?) ==>
              LastAnswer(log, spec) == Some(log[p].reply.id.GetOr(""))
  {
    if p < |log| - 1 {
      AnswerSeen(log[..|log| - 1], spec, p);
    }
  }

  lemma {:induction false} LaterAnswer(log: seq<Attempt>, spec: nat, q: nat) returns (r: nat)
    requires q < |log| && log[q].spec == spec && log[q].reply.Answered?
    ensures q <= r < |log| && log[r].spec == spec && log[r].reply.Answered?
    ensures LastAnswer(log, spec) == Some(log[r].reply.id.GetOr(""))
  {
    var last := |log| - 1;
    if log[last].spec == spec && log[last].reply.Answered? {
      r := last;
    } else {
      r := LaterAnswer(log[..last], spec, q);
    }
  }

  /** Where the broker gives every job its own id, a job is fetched under its own exactly if no job with the same
      specification got an answer after it. */
  lemma FetchesItsOwnIff(c: Client, index: nat, p: nat)
    requires Reachable(c) && InPhase(c, index, {Submitted})
    requires p < |c.log| && c.log[p].index == index
    requires forall q, r :: 0 <= q < r < |c.log| && c.log[q].reply.Answered? && c.log[r].reply.Answered? ==>
               c.log[q].reply.id.GetOr("") != c.log[r].reply.id.GetOr("")
    ensures HasSpec(c, index) && c.log[p].reply.Answered?
    ensures SpecOf(c, index).jobId == Some(c.log[p].reply.id.GetOr("")) <==>
              forall q :: p < q < |c.log| ==> c.log[q].spec != c.jobs[index].spec || !c.log[q].reply.Answered?
  {
    FetchesLastAnswer(c, index);
    ReachableInv(c);
    assert PhaseFits(Submitted, c.log, index, c.jobs[index].spec);
    AnswerSeen(c.log, c.jobs[index].spec, p);
    if q :| p < q < |c.log| && c.log[q].spec == c.jobs[index].spec && c.log[q].reply.Answered? {
      var r := LaterAnswer(c.log, c.jobs[index].spec, q);
      assert c.log[p].reply.id.GetOr("") != c.log[r].reply.id.GetOr("");
    }
  }

  ghost predicate PayloadsFit(c: Client) {
    forall p :: 0 <= p < |c.log| ==>
      c.log[p].spec < |c.specs|
      && c.log[p].payload == if LastAnswer(c.log[..p], c.log[p].spec).Some? then None
                             else Some(c.specs[c.log[p].spec].content)
  }

  lemma SubmitKeepsPayloads(c: Client, index: nat, reply: Reply)
    requires SpecsFit(c) && PayloadsFit(c)
    ensures PayloadsFit(AfterSubmit(c, index, reply))
  {
    if CanSubmit(c, index) {
      var c' := AfterSubmit(c, index, reply);
      forall p | 0 <= p < |c'.log|
        ensures c'.log[..p] == c.log[..p]
      {
      }
      assert c.log[..|c.log|] == c.log;
      assert forall s :: 0 <= s < |c.specs| ==> c'.specs[s].content == c.specs[s].content;
    }
  }

  lemma PayloadsKept(c: Client, action: Action)
    requires SpecsFit(c) && PayloadsFit(c)
    ensures PayloadsFit(Apply(c, action))
  {
    match action
    case Submit(index, reply) => SubmitKeepsPayloads(c, index, reply);
    case Work(future, reply) =>
      if future < |c.futures| && c.futures[future].Queued? {
        var d := AfterSubmit(c, c.futures[future].index, reply);
        SubmitKeepsPayloads(c, c.futures[future].index, reply);
        SamePayloads(d, Apply(c, action));
      }
    case _ => SamePayloads(c, Apply(c, action));
  }

  lemma SamePayloads(c: Client, d: Client)
    requires PayloadsFit(c) && d.log == c.log && |c.specs| <= |d.specs|
    requires forall s :: 0 <= s < |c.specs| ==> d.specs[s].content == c.specs[s].content
    ensures PayloadsFit(d)
  {
  }

  lemma {:induction false} PayloadsAlways(c: Client, actions: seq<Action>)
    requires Inv(c) && PayloadsFit(c)
    ensures PayloadsFit(Run(c, actions))
    decreases |actions|
  {
    if actions != [] {
      InvKept(c, actions[0]);
      PayloadsKept(c, actions[0]);
      PayloadsAlways(Apply(c, actions[0]), actions[1..]);
    }
  }

  /** A job goes out with the content of its specification exactly if no earlier submission with the same
      specification was answered; otherwise it goes out empty. */
  lemma SentWithContentIff(c: Client, p: nat)
    requires Reachable(c) && p < |c.log|
    ensures c.log[p].spec < |c.specs|
    ensures c.log[p].payload in {None, Some(c.specs[c.log[p].spec].content)}
    ensures c.log[p].payload.Some? <==>
              forall q :: 0 <= q < p ==> c.log[q].spec != c.log[p].spec || !c.log[q].reply.Answered?
  {
    var actions :| Run(EMPTY, actions) == c;
    PayloadsAlways(EMPTY, actions);
    var before := c.log[..p];
    if q :| 0 <= q < p && c.log[q].spec == c.log[p].spec && c.log[q].reply.Answered? {
      AnswerSeen(before, c.log[p].spec, q);
    } else {
      NoAnswer(before, c.log[p].spec);
    }
  }

  /** Two jobs share a task list. */
  predicate ShareList(c: Client, i: nat, j: nat) {
    HasSpec(c, i) && HasSpec(c, j) && ListOf(c, i) == ListOf(c, j)
  }

  /** The tasks of a job that has left pending change in a step exactly if the step adds a task to a pending job
      that shares its task list. */
  lemma TasksChangeIff(c: Client, action: Action, index: nat)
    requires Reachable(c) && index in c.jobs && !c.jobs[index].phase.Pending? && index in Apply(c, action).jobs
    ensures HasSpec(c, index) && HasSpec(Apply(c, action), index)
    ensures TasksOf(Apply(c, action), index) != TasksOf(c, index) <==>
              action.AddTask? && InPhase(c, action.index, {Pending}) && ShareList(c, index, action.index)
  {
    ReachableInv(c);
    RefsKept(c, action);
    StepContinues(c, action);
    if action.Work? && action.future < |c.futures| {
      assert AfterSubmit(c, c.futures[action.future].index, action.reply).lists == c.lists;
    }
  }

  /** A worker that takes a submission is done with it, however it ends, and takes no other. */
  lemma WorkIsDone(c: Client, future: nat, reply: Reply)
    requires future < |c.futures| && c.futures[future].Queued?
    ensures var d := Apply(c, Work(future, reply));
            && |d.futures| == |c.futures| && d.futures[future] == Done(c.futures[future].index)
            && forall other | 0 <= other < |c.futures| && other != future :: d.futures[other] == c.futures[other]
  {
  }

  /** From which phase which can be set: none but forward, and none from a phase in which a job has ended. */
  lemma PhasesGoForward(from: Phase, to: Phase)
    ensures CanBecome(from, to) <==>
              match from
              case Pending => true
              case SubmittedAsync => !to.Pending?
              case Submitted => !to.Pending? && !to.SubmittedAsync?
              case Processing => !to.Pending? && !to.SubmittedAsync? && !to.Submitted?
              case Completed => false
              case Failed => false
              case Cancelled => false
  {
  }

  /** A new specification shares the task list it is given if and only if there are tasks on it; otherwise it gets a
      new and empty one, which no other has. */
  lemma SharesListIff(c: Client, content: string, list: nat)
    requires Reachable(c) && list < |c.lists|
    ensures var d, n := Apply(c, MakeSpec(content, Some(list))), |c.specs|;
            && |d.specs| == n + 1 && d.specs[..n] == c.specs && d.specs[n].list < |d.lists| && c.lists <= d.lists
            && (d.specs[n].list == list <==> c.lists[list] != [])
            && (c.lists[list] == [] ==>
                  d.lists[d.specs[n].list] == [] && forall i | 0 <= i < n :: c.specs[i].list != d.specs[n].list)
  {
    ReachableInv(c);
    var d := Apply(c, MakeSpec(content, Some(list)));
    assert d.specs[..|c.specs|] == c.specs;
    if c.lists[list] == [] {
      forall i | 0 <= i < |c.specs| ensures c.specs[i].list != d.specs[|c.specs|].list {
        assert c.specs[i].list < |c.lists|;
      }
    }
  }

  /** The order in which an extraction and the tasks that follow from its options go on a task list. */
  function Turn(task: Task): nat {
    match task
    case Extract(_, _, _, _) => 0
    case TableExtraction => 1
    case ChartExtraction => 2
    case InfographicExtraction => 3
    case AudioExtraction => 4
    case OtherTask(_) => 5
  }

  /** A task that is added to a pending job comes behind all others. Behind an extraction come, once each and in this
      order, a table, a chart, an infographic and an audio extraction, exactly if its options ask for them; behind
      any other task comes nothing. */
  lemma TaskBringsCompanions(c: Client, index: nat, task: Task) returns (added: seq<Task>)
    requires Reachable(c) && InPhase(c, index, {Pending})
    ensures HasSpec(c, index) && HasSpec(Apply(c, AddTask(index, task)), index)
    ensures TasksOf(Apply(c, AddTask(index, task)), index) == TasksOf(c, index) + added
    ensures added != [] && added[0] == task
    ensures !task.Extract? ==> |added| == 1
    ensures task.Extract? ==>
              && (forall i :: 0 <= i < |added| ==> Turn(added[i]) < 5)
              && (forall i, j :: 0 <= i < j < |added| ==> Turn(added[i]) < Turn(added[j]))
              && (TableExtraction in added <==> task.tables) && (ChartExtraction in added <==> task.charts)
              && (InfographicExtraction in added <==> task.infographics)
              && (AudioExtraction in added <==> task.audio)
  {
    ReachableInv(c);
    if task.Extract? {
      added := ChosenInTurn(task);
    } else {
      added := WithCompanions(task);
    }
  }

  /** The tasks come in turn, and only such as have their turn before this. */
  ghost predicate InTurn(tasks: seq<Task>, turn: nat) {
    && (forall i :: 0 <= i < |tasks| ==> Turn(tasks[i]) < turn)
    && (forall i, j :: 0 <= i < j < |tasks| ==> Turn(tasks[i]) < Turn(tasks[j]))
  }

  lemma NextInTurn(tasks: seq<Task>, task: Task, asked: bool) returns (tasks': seq<Task>)
    requires tasks != [] && InTurn(tasks, Turn(task))
    ensures tasks' == tasks + if asked then [task] else []
    ensures tasks' != [] && tasks'[0] == tasks[0] && InTurn(tasks', Turn(task) + 1)
    ensures forall other :: other in tasks' <==> other in tasks || (other == task && asked)
    ensures task !in tasks
  {
    tasks' := tasks + if asked then [task] else [];
    assert task !in tasks;
  }

  lemma ChosenInTurn(task: Task) returns (added: seq<Task>)
    requires task.Extract?
    ensures added == WithCompanions(task)
    ensures added != [] && added[0] == task && InTurn(added, 5)
    ensures forall other :: other in added <==>
              || other == task
              || (other == TableExtraction && task.tables) || (other == ChartExtraction && task.charts)
              || (other == InfographicExtraction && task.infographics)
              || (other == AudioExtraction && task.audio)
  {
    var t := NextInTurn([task], TableExtraction, task.tables);
    var c := NextInTurn(t, ChartExtraction, task.charts);
    var g := NextInTurn(c, InfographicExtraction, task.infographics);
    added := NextInTurn(g, AudioExtraction, task.audio);
    CompanionsRegrouped(task, t, c, g, added);
  }

  lemma CompanionsRegrouped(task: Task, t: seq<Task>, c: seq<Task>, g: seq<Task>, a: seq<Task>)
    requires task.Extract?
    requires t == [task] + (if task.tables then [TableExtraction] else [])
    requires c == t + (if task.charts then [ChartExtraction] else [])
    requires g == c + (if task.infographics then [InfographicExtraction] else [])
    requires a == g + (if task.audio then [AudioExtraction] else [])
    ensures WithCompanions(task) == a
  {
  }

  /** A job is added only with a task list that no other job has. */
  predicate AddsUnshared(c: Client, action: Action) {
    action.AddJob? && action.spec < |c.specs| ==>
      forall i :: i in c.jobs && HasSpec(c, i) ==> ListOf(c, i) != c.specs[action.spec].list
  }

  predicate AllAddUnshared(c: Client, actions: seq<Action>)
    decreases |actions|
  {
    actions == [] || (AddsUnshared(c, actions[0]) && AllAddUnshared(Apply(c, actions[0]), actions[1..]))
  }

  ghost predicate Separate(c: Client) {
    forall i, j :: i in c.jobs && j in c.jobs && i != j ==> !ShareList(c, i, j)
  }

  /** A job that has been handed over still has the tasks it was handed over with. */
  ghost predicate TasksAsSent(c: Client) {
    forall p :: 0 <= p < |c.log| && HasSpec(c, c.log[p].index) ==> TasksOf(c, c.log[p].index) == c.log[p].tasks
  }

  lemma SeparateKept(c: Client, action: Action)
    requires Inv(c) && Separate(c) && AddsUnshared(c, action)
    ensures Separate(Apply(c, action))
  {
    var d := Apply(c, action);
    forall i, j | i in d.jobs && j in d.jobs && i != j ensures !ShareList(d, i, j) {
      PairKept(c, action, i, j);
    }
  }

  lemma PairKept(c: Client, action: Action, i: nat, j: nat)
    requires Inv(c) && Separate(c) && AddsUnshared(c, action)
    requires i in Apply(c, action).jobs && j in Apply(c, action).jobs && i != j
    ensures !ShareList(Apply(c, action), i, j)
  {
    if i in c.jobs && j in c.jobs {
      assert !ShareList(c, i, j);
      ListKept(c, action, i);
      ListKept(c, action, j);
    } else {
      OneJobIsNew(c, action, if i in c.jobs then i else j, if i in c.jobs then j else i);
    }
  }

  lemma ListKept(c: Client, action: Action, i: nat)
    requires Inv(c) && i in c.jobs && i in Apply(c, action).jobs
    ensures HasSpec(c, i) && HasSpec(Apply(c, action), i) && ListOf(Apply(c, action), i) == ListOf(c, i)
  {
    StepContinues(c, action);
    RefsKept(c, action);
  }

  lemma OneJobIsNew(c: Client, action: Action, i: nat, j: nat)
    requires Inv(c) && AddsUnshared(c, action) && i != j
    requires i in Apply(c, action).jobs && j in Apply(c, action).jobs && j !in c.jobs
    ensures !ShareList(Apply(c, action), i, j)
  {
    NewJobIsAdded(c, action, j);
    if i !in c.jobs {
      NewJobIsAdded(c, action, i);
    } else {
      ListKept(c, action, i);
    }
  }

  lemma NewJobIsAdded(c: Client, action: Action, j: nat)
    requires j !in c.jobs && j in Apply(c, action).jobs
    ensures action.AddJob? && action.spec < |c.specs| && j == c.next
  {
  }

  lemma SubmitSendsTasks(c: Client, index: nat, reply: Reply)
    requires Inv(c) && TasksAsSent(c)
    ensures TasksAsSent(AfterSubmit(c, index, reply))
  {
    if CanSubmit(c, index) {
      SubmitIsFirst(c, index);
    }
  }

  lemma AddedTasksNotSent(c: Client, index: nat, task: Task)
    requires Inv(c) && Separate(c) && TasksAsSent(c)
    ensures TasksAsSent(AfterAddTask(c, index, task))
  {
    var d := AfterAddTask(c, index, task);
    if d != c {
      assert PhaseFits(Pending, c.log, index, c.jobs[index].spec);
      forall p | 0 <= p < |c.log| && HasSpec(c, c.log[p].index)
        ensures TasksOf(d, c.log[p].index) == c.log[p].tasks
      {
        assert !ShareList(c, c.log[p].index, index);
      }
    }
  }

  lemma NewJobNotSent(c: Client, spec: nat)
    requires Inv(c) && TasksAsSent(c)
    ensures TasksAsSent(AfterAddJob(c, spec))
  {
  }

  lemma TasksAsSentKept(c: Client, action: Action)
    requires Inv(c) && Separate(c) && TasksAsSent(c)
    ensures TasksAsSent(Apply(c, action))
  {
    match action
    case AddJob(spec) => NewJobNotSent(c, spec);
    case AddTask(index, task) => AddedTasksNotSent(c, index, task);
    case Submit(index, reply) => SubmitSendsTasks(c, index, reply);
    case Work(future, reply) =>
      if future < |c.futures| {
        SubmitSendsTasks(c, c.futures[future].index, reply);
      }
    case Settle(future) => SettleChangesNothing(c, future);
    case _ =>
  }

  lemma {:induction false} TasksAsSentFrom(c: Client, actions: seq<Action>)
    requires Inv(c) && Separate(c) && TasksAsSent(c) && AllAddUnshared(c, actions)
    ensures TasksAsSent(Run(c, actions))
    decreases |actions|
  {
    if actions != [] {
      InvKept(c, actions[0]);
      SeparateKept(c, actions[0]);
      TasksAsSentKept(c, actions[0]);
      TasksAsSentFrom(Apply(c, actions[0]), actions[1..]);
    }
  }

  /** When no two jobs share a task list, every job that has been handed over has at all later times the tasks
      that were sent. */
  lemma TasksFrozen(actions: seq<Action>)
    requires AllAddUnshared(EMPTY, actions)
    ensures TasksAsSent(Run(EMPTY, actions))
  {
    TasksAsSentFrom(EMPTY, actions);
  }

  /** Without that, a specification added twice lets tasks into a job that has been sent. */
  lemma SharedSpecChangesSentTasks(content: string, name: string, id: string) returns (c: Client)
    ensures Reachable(c)
    ensures |c.log| == 1 && c.log[0].index == 0 && HasSpec(c, 0)
    ensures c.log[0].tasks == [] && TasksOf(c, 0) == [OtherTask(name)]
  {
    var two := OneSpecTwice(content);
    var last := [Submit(0, Answered(Some(id), 1)), AddTask(1, OtherTask(name))];
    var one := Apply(two, last[0]);
    assert one.jobs == map[0 := Job(0, Submitted), 1 := Job(0, Pending)] && one.lists == [[]];
    c := Apply(one, last[1]);
    RunTwo(two, last);
    RunsJoin(EMPTY, [MakeSpec(content, None), AddJob(0), AddJob(0)], last);
  }

  /** And it lets the second job go out empty, and the first be asked for under the id of the second. */
  lemma SharedSpecMixesJobs(content: string, id0: string, id1: string) returns (c: Client)
    ensures Reachable(c)
    ensures InPhase(c, 0, {Submitted}) && HasSpec(c, 0) && SpecOf(c, 0).jobId == Some(id1)
    ensures |c.log| == 2 && c.log[0].index == 0 && c.log[0].reply == Answered(Some(id0), 1)
    ensures c.log[0].payload == Some(content) && c.log[1].index == 1 && c.log[1].payload == None
  {
    var two := OneSpecTwice(content);
    var last := [Submit(0, Answered(Some(id0), 1)), Submit(1, Answered(Some(id1), 1))];
    var one := Apply(two, last[0]);
    assert one.jobs == map[0 := Job(0, Submitted), 1 := Job(0, Pending)];
    c := Apply(one, last[1]);
    RunTwo(two, last);
    RunsJoin(EMPTY, [MakeSpec(content, None), AddJob(0), AddJob(0)], last);
  }

  lemma OneSpecTwice(content: string) returns (c: Client)
    ensures c == Run(EMPTY, [MakeSpec(content, None), AddJob(0), AddJob(0)])
    ensures c == Client(2, map[0 := Job(0, Pending), 1 := Job(0, Pending)], [Spec(content, false, 0, None)], [[]],
                        [], [])
  {
    var make, add := MakeSpec(content, None), AddJob(0);
    var first := Apply(EMPTY, make);
    RunTwo(first, [add, add]);
    assert [make, add, add][1..] == [add, add];
    c := Apply(Apply(first, add), add);
    assert c.jobs == map[0 := Job(0, Pending), 1 := Job(0, Pending)];
  }
}
