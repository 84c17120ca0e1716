// The multiprocessing stage never gets stuck: work in flight always has an enabled step, and every step
// the stage takes on its own brings something nearer to the way out.

module StageDrain {
  import opened StageModel
  import opened StageInvariant
  import opened StageSafety

  // ---------------------------------------------------------------------------
  // The distance of everything in the stage to the way out
  // ---------------------------------------------------------------------------

  function EventDistance(ev: Event, package: nat, completion: nat): nat {
    if ev.Completed? then completion else package
  }

  function QueueDistance(q: seq<Event>, package: nat, completion: nat): nat {
    if q == [] then 0 else EventDistance(q[0], package, completion) + QueueDistance(q[1..], package, completion)
  }

  function ProducerDistance(p: Producer): nat {
    match p
    case Forwarding(_) => 3
    case Sending(ev) => EventDistance(ev, 8, 10)
    case _ => 0
  }

  function ChildDistance(c: Child): nat {
    match c
    case Working(_) => 6
    case Replying(ev) => EventDistance(ev, 5, 8)
    case LastReply => 4
    case _ => 0
  }

  function ParentDistance(p: Parent): nat {
    match p
    case Delivering(_) => 3
    case Completing(calls) => calls
    case _ => 0
  }

  function EngineDistance(engine: Engine): nat {
    ProducerDistance(engine.producer) + QueueDistance(engine.input, 7, 9) + ChildDistance(engine.child)
    + QueueDistance(engine.response, 4, 3) + ParentDistance(engine.parent)
  }

  function EnginesDistance(engines: seq<Engine>): nat {
    if engines == [] then 0 else EngineDistance(engines[0]) + EnginesDistance(engines[1..])
  }

  function Distance(s: Stage): nat {
    EnginesDistance(s.engines) + 2 * |s.reconstruct| + 2 * |s.passThru| + |s.merge|
  }

  lemma {:induction false} EnginesDistanceUpdate(engines: seq<Engine>, e: nat, engine: Engine)
    requires e < |engines|
    ensures EnginesDistance(engines[e := engine]) + EngineDistance(engines[e])
         == EnginesDistance(engines) + EngineDistance(engine)
  {
    if e == 0 {
      assert engines[e := engine][1..] == engines[1..];
    } else {
      EnginesDistanceUpdate(engines[1..], e - 1, engine);
      assert engines[e := engine][1..] == engines[1..][e - 1 := engine];
    }
  }

  lemma SingletonDistance(q: seq<Event>, package: nat, completion: nat)
    requires 0 < |q| <= MAX_QUEUE_SIZE
    ensures q == [q[0]] && QueueDistance(q, package, completion) == EventDistance(q[0], package, completion)
    ensures q[1..] == []
  {
  }

  /** What an engine's step hands over to the nodes behind it. */
  function HandedOver(action: Action): nat {
    if action.PutPassThru? || action.Deliver? then 2 else 0
  }

  lemma EngineStepCloser(cfg: Config, s: Stage, e: nat, action: Action)
    requires EngineEnabled(cfg, s, e, action) && EngineOk(s.engines[e])
    requires !action.Offer? && !action.UpstreamDone?
    ensures EngineDistance(EngineAfter(cfg, s, e, action)) + HandedOver(action) < EngineDistance(s.engines[e])
  {
    if action.PutInput? || action.TakeInput? {
      InputStepCloser(cfg, s, e, action);
    } else if action.PutResponse? || action.TakeResponse? {
      ResponseStepCloser(cfg, s, e, action);
    }
  }

  lemma InputStepCloser(cfg: Config, s: Stage, e: nat, action: Action)
    requires EngineEnabled(cfg, s, e, action) && EngineOk(s.engines[e]) && (action.PutInput? || action.TakeInput?)
    ensures EngineDistance(EngineAfter(cfg, s, e, action)) + HandedOver(action) < EngineDistance(s.engines[e])
  {
    SingletonDistance(if action.PutInput? then EngineAfter(cfg, s, e, action).input else s.engines[e].input, 7, 9);
  }

  lemma ResponseStepCloser(cfg: Config, s: Stage, e: nat, action: Action)
    requires EngineEnabled(cfg, s, e, action) && EngineOk(s.engines[e])
    requires action.PutResponse? || action.TakeResponse?
    ensures EngineDistance(EngineAfter(cfg, s, e, action)) + HandedOver(action) < EngineDistance(s.engines[e])
  {
    SingletonDistance(if action.PutResponse? then EngineAfter(cfg, s, e, action).response else s.engines[e].response,
                      4, 3);
  }

  /** Every step that is not an arrival strictly decreases the distance. */
  lemma StepCloser(cfg: Config, s: Stage, step: Step)
    requires AllOk(s.engines) && Enabled(cfg, s, step) && Internal(step)
    ensures Distance(Apply(cfg, s, step)) < Distance(s)
  {
    if step.At? {
      assert EngineOk(s.engines[step.e]);
      EngineStepCloser(cfg, s, step.e, step.action);
      EnginesDistanceUpdate(s.engines, step.e, EngineAfter(cfg, s, step.e, step.action));
    }
  }

  ghost predicate AllInternal(steps: seq<Step>) {
    forall i | 0 <= i < |steps| :: Internal(steps[i])
  }

  /** Left to itself, the stage stops after at most Distance(s) steps. */
  lemma {:induction false} RunsAreBounded(cfg: Config, s: Stage, steps: seq<Step>, t: Stage)
    requires Inv(cfg, s) && Runs(cfg, s, steps, t) && AllInternal(steps)
    ensures |steps| + Distance(t) <= Distance(s)
    decreases |steps|
  {
    if steps != [] {
      var s' := Apply(cfg, s, steps[0]);
      assert Internal(steps[0]);
      StepCloser(cfg, s, steps[0]);
      InvKept(cfg, s, steps[0]);
      forall i | 0 <= i < |steps[1..]| ensures Internal(steps[1..][i]) {
        assert Internal(steps[i + 1]);
      }
      RunsAreBounded(cfg, s', steps[1..], t);
    }
  }

  // ---------------------------------------------------------------------------
  // No deadlock
  // ---------------------------------------------------------------------------

  /** The engine holds nothing; if its upstream has completed, so have its threads. */
  predicate EngineQuiet(engine: Engine) {
    && (engine.producer.Idle? || engine.producer.Closed?)
    && Line(engine) == []
    && (engine.producer.Closed? ==> engine.child.Exited? && engine.parent.Ended? && engine.completions == 2)
  }

  predicate Quiet(s: Stage) {
    (forall e | 0 <= e < |s.engines| :: EngineQuiet(s.engines[e]))
    && s.passThru == [] && s.reconstruct == [] && s.merge == []
  }

  /** The next action of a busy engine. */
  function NextAction(engine: Engine): Action {
    if engine.parent.Delivering? then Deliver
    else if engine.parent.Completing? then SubCompleted
    else if engine.parent.Listening? && engine.response != [] then TakeResponse
    else if engine.child.Working? then Work
    else if engine.child.Replying? || engine.child.LastReply? then PutResponse
    else if engine.child.Waiting? && engine.input != [] then TakeInput
    else if engine.producer.Sending? then PutInput
    else PutPassThru
  }

  lemma BusyEngineCanStep(cfg: Config, s: Stage, e: nat)
    requires e < |s.engines| && EngineOk(s.engines[e]) && !EngineQuiet(s.engines[e])
    requires s.passThru == []
    ensures EngineEnabled(cfg, s, e, NextAction(s.engines[e]))
  {
    var engine := s.engines[e];
    if engine.input != [] {
      Singleton(engine.input);
    }
    if engine.response != [] {
      Singleton(engine.response);
    }
  }

  /** Reconstruct always finds the ledger entry it pops. */
  lemma LedgerEntryThere(cfg: Config, s: Stage)
    requires Inv(cfg, s) && s.reconstruct != []
    ensures Enabled(cfg, s, Reconstruct)
  {
    assert Done(cfg, s, s.reconstruct[0]);
  }

  /** Whenever work is in flight, some thread can take a step. */
  lemma Progress(cfg: Config, s: Stage) returns (step: Step)
    requires Inv(cfg, s) && !Quiet(s)
    ensures Internal(step) && Enabled(cfg, s, step)
  {
    if s.reconstruct != [] {
      LedgerEntryThere(cfg, s);
      step := Reconstruct;
    } else if s.merge != [] {
      step := Merge;
    } else if s.passThru != [] {
      step := PassThru;
    } else {
      var e :| 0 <= e < |s.engines| && !EngineQuiet(s.engines[e]);
      assert EngineOk(s.engines[e]);
      BusyEngineCanStep(cfg, s, e);
      step := At(e, NextAction(s.engines[e]));
    }
  }
}
