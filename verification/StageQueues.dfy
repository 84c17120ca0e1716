// The queues of the multiprocessing stage: how much they hold, and in which order things come out of them.

module StageQueues {
  import opened ControlMessages
  import opened StageModel
  import opened StageInvariant
  import opened StageSafety
  import opened StageTheorems
  import opened StageOutcome

  // ---------------------------------------------------------------------------
  // How much they hold
  // ---------------------------------------------------------------------------

  /** A pass-through queue that has a capacity is within it. */
  predicate PassThruBounded(cfg: Config, s: Stage) {
    cfg.edgeBuffer > 0 ==> |s.passThru| <= cfg.edgeBuffer
  }

  lemma {:induction false} PassThruStaysBounded(cfg: Config, s: Stage, steps: seq<Step>, t: Stage)
    requires Runs(cfg, s, steps, t) && PassThruBounded(cfg, s)
    ensures PassThruBounded(cfg, t)
    decreases |steps|
  {
    if steps != [] {
      PassThruStaysBounded(cfg, Apply(cfg, s, steps[0]), steps[1..], t);
    }
  }

  /** Over every run, each engine's two queues hold one event at most, and the pass-through queue holds no more than
      its capacity, unless that is 0 for none. */
  lemma QueuesAreBounded(cfg: Config, n: nat, steps: seq<Step>, t: Stage, e: nat)
    requires Reachable(cfg, n, steps, t) && e < |t.engines|
    ensures |t.engines[e].input| <= 1 && |t.engines[e].response| <= 1
    ensures cfg.edgeBuffer == 0 || |t.passThru| <= cfg.edgeBuffer
  {
    ReachableInv(cfg, n, steps, t);
    assert EngineOk(t.engines[e]);
    PassThruStaysBounded(cfg, Init(n), steps, t);
  }

  // ---------------------------------------------------------------------------
  // In which order
  // ---------------------------------------------------------------------------

  /** What has come to the merge node so far, oldest first. */
  function Merged(s: Stage): seq<Ref> {
    s.emitted + s.merge
  }

  /** Those that the stage has had nothing to do for. */
  function Unasked(cfg: Config, original: seq<Message>, refs: seq<Ref>): seq<Ref> {
    if refs == [] then []
    else (if refs[0] < |original| && !Eligible(cfg, original[refs[0]]) then [refs[0]] else [])
         + Unasked(cfg, original, refs[1..])
  }

  lemma {:induction false} UnaskedConcat(cfg: Config, original: seq<Message>, a: seq<Ref>, b: seq<Ref>)
    ensures Unasked(cfg, original, a + b) == Unasked(cfg, original, a) + Unasked(cfg, original, b)
  {
    if a == [] {
      assert a + b == b;
    } else {
      assert (a + b)[1..] == a[1..] + b && (a + b)[0] == a[0];
      UnaskedConcat(cfg, original, a[1..], b);
    }
  }

  lemma {:induction false} UnaskedStay(cfg: Config, original: seq<Message>, more: seq<Message>, refs: seq<Ref>)
    requires forall i | 0 <= i < |refs| :: refs[i] < |original|
    ensures Unasked(cfg, original + more, refs) == Unasked(cfg, original, refs)
  {
    if refs != [] {
      UnaskedStay(cfg, original, more, refs[1..]);
    }
  }

  /** What a step adds to the merge node's arrivals. */
  function Merges(s: Stage, step: Step): seq<Ref> {
    match step
    case Reconstruct =>
      if s.reconstruct != [] && s.reconstruct[0].id in s.ledger then [s.ledger[s.reconstruct[0].id]] else []
    case PassThru => if s.passThru != [] then [s.passThru[0]] else []
    case _ => []
  }

  /** And to those of the pass-through queue. */
  function Forwards(s: Stage, step: Step): seq<Ref> {
    if step.At? && step.action.PutPassThru? && step.e < |s.engines| && s.engines[step.e].producer.Forwarding?
    then [s.engines[step.e].producer.ref] else []
  }

  lemma StepMerges(cfg: Config, s: Stage, step: Step)
    requires Enabled(cfg, s, step)
    ensures Merged(Apply(cfg, s, step)) == Merged(s) + Merges(s, step)
    ensures (if step.PassThru? then Merges(s, step) else []) + Apply(cfg, s, step).passThru
         == s.passThru + Forwards(s, step)
    ensures s.original <= Apply(cfg, s, step).original
  {
    var t := Apply(cfg, s, step);
    match step
    case Merge => assert s.merge == [s.merge[0]] + s.merge[1..];
    case PassThru => assert s.passThru == [s.passThru[0]] + s.passThru[1..];
    case _ =>
  }

  /** What the merge node gets first leaves the stage first, over every run. */
  lemma {:induction false} MergeKeepsOrder(cfg: Config, s: Stage, steps: seq<Step>, t: Stage)
    requires Runs(cfg, s, steps, t)
    ensures Merged(s) <= Merged(t) && s.emitted <= t.emitted
    decreases |steps|
  {
    if steps != [] {
      StepMerges(cfg, s, steps[0]);
      MergeKeepsOrder(cfg, Apply(cfg, s, steps[0]), steps[1..], t);
    }
  }

  /** The messages the stage has had nothing to do for, in the order in which they came to the pass-through queue. */
  function Passed(cfg: Config, s: Stage): seq<Ref> {
    Unasked(cfg, s.original, Merged(s)) + s.passThru
  }

  /** All that has come to the merge node has been offered. */
  ghost predicate AllOffered(s: Stage) {
    forall i | 0 <= i < |Merged(s)| :: Merged(s)[i] < |s.original|
  }

  lemma MergedIsOffered(cfg: Config, s: Stage)
    requires Inv(cfg, s)
    ensures AllOffered(s)
  {
    forall i | 0 <= i < |Merged(s)| ensures Merged(s)[i] < |s.original| {
      if i < |s.emitted| {
        assert s.emitted[i] in s.emitted;
        assert Finished(cfg, s, s.emitted[i]);
      } else {
        assert s.merge[i - |s.emitted|] in s.merge;
        assert Finished(cfg, s, s.merge[i - |s.emitted|]);
      }
    }
  }

  /** The reconstruct node gives the merge node messages the stage had something to do for, the pass-through queue all
      others. */
  lemma MergesAreSorted(cfg: Config, s: Stage, step: Step)
    requires Inv(cfg, s) && Enabled(cfg, s, step)
    ensures Unasked(cfg, s.original, Merges(s, step)) == if step.PassThru? then Merges(s, step) else []
  {
    match step
    case Reconstruct =>
      assert s.reconstruct[0] in s.reconstruct;
      assert Done(cfg, s, s.reconstruct[0]);
      TakenInIff(cfg, s.original[s.ledger[s.reconstruct[0].id]]);
    case PassThru =>
      assert s.passThru[0] in s.passThru;
      assert Untouched(cfg, s, s.passThru[0]);
      TakenInIff(cfg, s.original[s.passThru[0]]);
    case _ =>
  }

  lemma PassedGrows(cfg: Config, original: seq<Message>, more: seq<Message>, merged: seq<Ref>, merges: seq<Ref>,
                    through: seq<Ref>, passThru: seq<Ref>, passThru': seq<Ref>, forwards: seq<Ref>)
    requires forall i | 0 <= i < |merged + merges| :: (merged + merges)[i] < |original|
    requires Unasked(cfg, original, merges) == through && through + passThru' == passThru + forwards
    ensures Unasked(cfg, original + more, merged + merges) + passThru'
         == Unasked(cfg, original, merged) + passThru + forwards
  {
    var before := Unasked(cfg, original, merged);
    UnaskedStay(cfg, original, more, merged + merges);
    UnaskedConcat(cfg, original, merged, merges);
    assert before + through + passThru' == before + (through + passThru');
    assert before + passThru + forwards == before + (passThru + forwards);
  }

  lemma StepPasses(cfg: Config, s: Stage, step: Step) returns (t: Stage)
    requires Inv(cfg, s) && Enabled(cfg, s, step)
    ensures t == Apply(cfg, s, step)
    ensures Passed(cfg, t) == Passed(cfg, s) + Forwards(s, step)
  {
    t := Apply(cfg, s, step);
    StepMerges(cfg, s, step);
    MergesAreSorted(cfg, s, step);
    StepOffered(cfg, s, step);
    var more := t.original[|s.original|..];
    assert t.original == s.original + more;
    PassedGrows(cfg, s.original, more, Merged(s), Merges(s, step), if step.PassThru? then Merges(s, step) else [],
                s.passThru, t.passThru, Forwards(s, step));
  }

  lemma StepOffered(cfg: Config, s: Stage, step: Step)
    requires Inv(cfg, s) && Enabled(cfg, s, step)
    ensures forall i | 0 <= i < |Merged(s) + Merges(s, step)| :: (Merged(s) + Merges(s, step))[i] < |s.original|
  {
    MergedIsOffered(cfg, s);
    MergesAreOffered(cfg, s, step);
  }

  lemma MergesAreOffered(cfg: Config, s: Stage, step: Step)
    requires Inv(cfg, s) && Enabled(cfg, s, step)
    ensures forall i | 0 <= i < |Merges(s, step)| :: Merges(s, step)[i] < |s.original|
  {
    match step
    case Reconstruct =>
      assert s.reconstruct[0] in s.reconstruct;
      assert Done(cfg, s, s.reconstruct[0]);
    case PassThru =>
      assert s.passThru[0] in s.passThru;
      assert Untouched(cfg, s, s.passThru[0]);
    case _ =>
  }

  /** The messages the stage has nothing to do for leave it in the order in which they came to the pass-through queue,
      over every run, whatever else leaves in between. */
  lemma {:induction false} PassThruKeepsOrder(cfg: Config, s: Stage, steps: seq<Step>, t: Stage)
    requires Inv(cfg, s) && Runs(cfg, s, steps, t)
    ensures Passed(cfg, s) <= Passed(cfg, t)
    decreases |steps|
  {
    if steps != [] {
      var s' := StepPasses(cfg, s, steps[0]);
      InvKept(cfg, s, steps[0]);
      PassThruKeepsOrder(cfg, s', steps[1..], t);
    }
  }
}
