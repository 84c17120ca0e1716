// The steps of an engine's child and parent threads, over any run, are those of the two loops: what a thread puts
// out in a run is what its loop makes of what it takes in.

module StageLoops {
  import opened StageModel
  import opened StageNodes
  import opened StageTheorems

  /** What one engine's actions log over a run. */
  ghost function Logged<T>(log: (Engine, Action) -> seq<T>, cfg: Config, s: Stage, steps: seq<Step>, t: Stage, e: nat)
      : seq<T>
    requires Runs(cfg, s, steps, t) && e < |s.engines|
    decreases |steps|
  {
    if steps == [] then []
    else
      (if steps[0].At? && steps[0].e == e then log(s.engines[e], steps[0].action) else [])
      + Logged(log, cfg, Apply(cfg, s, steps[0]), steps[1..], t, e)
  }

  function Sent(engine: Engine, action: Action): seq<Event> {
    if action.PutInput? && engine.producer.Sending? then [engine.producer.ev] else []
  }

  function ChildTaken(engine: Engine, action: Action): seq<Event> {
    if action.TakeInput? && engine.input != [] then [engine.input[0]] else []
  }

  function ChildPut(engine: Engine, action: Action): seq<Event> {
    if !action.PutResponse? then []
    else if engine.child.LastReply? then [Completed]
    else if engine.child.Replying? then [engine.child.ev] else []
  }

  function ParentTaken(engine: Engine, action: Action): seq<Event> {
    if action.TakeResponse? && engine.response != [] then [engine.response[0]] else []
  }

  function ParentCalls(engine: Engine, action: Action): seq<SubscriberCall> {
    if action.Deliver? && engine.parent.Delivering? then [CallOnNext(engine.parent.pkg)]
    else if action.SubCompleted? then [CallOnCompleted] else []
  }

  /** What the child thread still puts out from where it stands, given what it takes. */
  function ChildLoop(cfg: Config, child: Child, events: seq<Event>): seq<Event>
    decreases |events|, if child.Waiting? then 0 else 1
  {
    match child
    case Waiting =>
      if events == [] then []
      else if events[0].Completed? then [Completed, Completed]
      else [Answer(cfg, events[0])] + ChildLoop(cfg, Waiting, events[1..])
    case Working(pkg) => [Handle(cfg, pkg)] + ChildLoop(cfg, Waiting, events)
    case Replying(ev) => if ev.Completed? then [Completed, Completed] else [ev] + ChildLoop(cfg, Waiting, events)
    case LastReply => [Completed]
    case Exited => []
  }

  /** What the parent thread still calls from where it stands, given what it takes. */
  function ParentLoop(parent: Parent, events: seq<Event>): seq<SubscriberCall>
    decreases |events|, if parent.Listening? then 0 else if parent.Completing? then 1 + parent.calls else 1
  {
    match parent
    case Listening =>
      if events == [] then []
      else if events[0].Completed? then [CallOnCompleted, CallOnCompleted]
      else [CallOnNext(events[0].pkg)] + ParentLoop(Listening, events[1..])
    case Delivering(pkg) => [CallOnNext(pkg)] + ParentLoop(Listening, events)
    case Completing(calls) => [CallOnCompleted] + if calls <= 1 then [] else ParentLoop(Completing(calls - 1), events)
    case Ended => []
  }

  // ---------------------------------------------------------------------------
  // One step
  // ---------------------------------------------------------------------------

  lemma EnginesStay(cfg: Config, s: Stage, step: Step)
    requires Enabled(cfg, s, step)
    ensures |Apply(cfg, s, step).engines| == |s.engines|
  {
  }

  /** Steps of others leave an engine alone. */
  lemma OthersLeaveAlone(cfg: Config, s: Stage, step: Step, e: nat)
    requires Enabled(cfg, s, step) && e < |s.engines| && !(step.At? && step.e == e)
    ensures Apply(cfg, s, step).engines[e] == s.engines[e]
  {
  }

  lemma OwnStep(cfg: Config, s: Stage, e: nat, action: Action)
    requires Enabled(cfg, s, At(e, action))
    ensures e < |s.engines| && Apply(cfg, s, At(e, action)).engines[e] == EngineAfter(cfg, s, e, action)
  {
  }

  lemma Nothing<T>(a: seq<T>)
    ensures [] + a == a
  {
  }

  lemma ChildTakes(cfg: Config, ev: Event, events: seq<Event>)
    ensures ChildLoop(cfg, Waiting, [ev] + events)
         == ChildLoop(cfg, if ev.OnNext? then Working(ev.pkg) else Replying(ev), events)
  {
    assert ([ev] + events)[1..] == events;
  }

  lemma ChildStep(cfg: Config, s: Stage, e: nat, action: Action, events: seq<Event>)
    requires EngineEnabled(cfg, s, e, action)
    ensures ChildLoop(cfg, s.engines[e].child, ChildTaken(s.engines[e], action) + events)
         == ChildPut(s.engines[e], action) + ChildLoop(cfg, EngineAfter(cfg, s, e, action).child, events)
  {
    Nothing(events);
    Nothing(ChildLoop(cfg, EngineAfter(cfg, s, e, action).child, events));
    if action.TakeInput? {
      ChildTakes(cfg, s.engines[e].input[0], events);
    }
  }

  lemma ParentTakes(ev: Event, events: seq<Event>)
    ensures ParentLoop(Listening, [ev] + events)
         == ParentLoop(if ev.Completed? then Completing(2) else Delivering(ev.pkg), events)
  {
    assert ([ev] + events)[1..] == events;
    if ev.Completed? {
      assert ParentLoop(Completing(2), events) == [CallOnCompleted] + ParentLoop(Completing(1), events);
    }
  }

  lemma ParentCompletes(calls: nat, events: seq<Event>)
    ensures ParentLoop(Completing(calls), events)
         == [CallOnCompleted] + ParentLoop(if calls <= 1 then Ended else Completing(calls - 1), events)
  {
  }

  lemma ParentStep(cfg: Config, s: Stage, e: nat, action: Action, events: seq<Event>)
    requires EngineEnabled(cfg, s, e, action)
    ensures ParentLoop(s.engines[e].parent, ParentTaken(s.engines[e], action) + events)
         == ParentCalls(s.engines[e], action) + ParentLoop(EngineAfter(cfg, s, e, action).parent, events)
  {
    var parent, parent' := s.engines[e].parent, EngineAfter(cfg, s, e, action).parent;
    if action.TakeResponse? {
      Nothing(ParentLoop(parent', events));
      ParentTakes(s.engines[e].response[0], events);
    } else {
      Nothing(events);
      if action.SubCompleted? {
        ParentCompletes(parent.calls, events);
      } else if !action.Deliver? {
        assert parent' == parent;
        Nothing(ParentLoop(parent, events));
      }
    }
  }

  lemma Regroup<T>(a: seq<T>, b: seq<T>, c: seq<T>)
    ensures a + b + c == a + (b + c)
  {
  }

  // ---------------------------------------------------------------------------
  // Whole runs
  // ---------------------------------------------------------------------------

  lemma {:induction false} ChildRuns(cfg: Config, s: Stage, steps: seq<Step>, t: Stage, e: nat)
    requires Runs(cfg, s, steps, t) && e < |s.engines|
    ensures |t.engines| == |s.engines|
    ensures ChildLoop(cfg, s.engines[e].child, Logged(ChildTaken, cfg, s, steps, t, e))
         == Logged(ChildPut, cfg, s, steps, t, e) + ChildLoop(cfg, t.engines[e].child, [])
    decreases |steps|
  {
    if steps != [] {
      var s' := Apply(cfg, s, steps[0]);
      EnginesStay(cfg, s, steps[0]);
      ChildRuns(cfg, s', steps[1..], t, e);
      var taken, put := Logged(ChildTaken, cfg, s', steps[1..], t, e), Logged(ChildPut, cfg, s', steps[1..], t, e);
      if steps[0].At? && steps[0].e == e {
        var action := steps[0].action;
        OwnStep(cfg, s, e, action);
        ChildStep(cfg, s, e, action, taken);
        Regroup(ChildPut(s.engines[e], action), put, ChildLoop(cfg, t.engines[e].child, []));
      } else {
        OthersLeaveAlone(cfg, s, steps[0], e);
        assert [] + taken == taken && [] + put == put;
      }
    }
  }

  lemma {:induction false} ParentRuns(cfg: Config, s: Stage, steps: seq<Step>, t: Stage, e: nat)
    requires Runs(cfg, s, steps, t) && e < |s.engines|
    ensures |t.engines| == |s.engines|
    ensures ParentLoop(s.engines[e].parent, Logged(ParentTaken, cfg, s, steps, t, e))
         == Logged(ParentCalls, cfg, s, steps, t, e) + ParentLoop(t.engines[e].parent, [])
    decreases |steps|
  {
    if steps != [] {
      var s' := Apply(cfg, s, steps[0]);
      EnginesStay(cfg, s, steps[0]);
      ParentRuns(cfg, s', steps[1..], t, e);
      var taken := Logged(ParentTaken, cfg, s', steps[1..], t, e);
      var calls := Logged(ParentCalls, cfg, s', steps[1..], t, e);
      if steps[0].At? && steps[0].e == e {
        var action := steps[0].action;
        OwnStep(cfg, s, e, action);
        ParentStep(cfg, s, e, action, taken);
        Regroup(ParentCalls(s.engines[e], action), calls, ParentLoop(t.engines[e].parent, []));
      } else {
        OthersLeaveAlone(cfg, s, steps[0], e);
        assert [] + taken == taken && [] + calls == calls;
      }
    }
  }

  /** Both queues hand on in order what was put into them. */
  lemma {:induction false} QueuesInOrder(cfg: Config, s: Stage, steps: seq<Step>, t: Stage, e: nat)
    requires Runs(cfg, s, steps, t) && e < |s.engines| == |t.engines|
    ensures s.engines[e].input + Logged(Sent, cfg, s, steps, t, e)
         == Logged(ChildTaken, cfg, s, steps, t, e) + t.engines[e].input
    ensures s.engines[e].response + Logged(ChildPut, cfg, s, steps, t, e)
         == Logged(ParentTaken, cfg, s, steps, t, e) + t.engines[e].response
    decreases |steps|
  {
    if steps != [] {
      var s' := Apply(cfg, s, steps[0]);
      EnginesStay(cfg, s, steps[0]);
      QueuesInOrder(cfg, s', steps[1..], t, e);
      if steps[0].At? && steps[0].e == e {
        OwnStep(cfg, s, e, steps[0].action);
        InputStep(cfg, s, e, steps[0].action, Logged(Sent, cfg, s', steps[1..], t, e),
                  Logged(ChildTaken, cfg, s', steps[1..], t, e), t.engines[e].input);
        ResponseStep(cfg, s, e, steps[0].action, Logged(ChildPut, cfg, s', steps[1..], t, e),
                     Logged(ParentTaken, cfg, s', steps[1..], t, e), t.engines[e].response);
      } else {
        OthersLeaveAlone(cfg, s, steps[0], e);
        Nothing(Logged(Sent, cfg, s', steps[1..], t, e));
        Nothing(Logged(ChildTaken, cfg, s', steps[1..], t, e));
        Nothing(Logged(ChildPut, cfg, s', steps[1..], t, e));
        Nothing(Logged(ParentTaken, cfg, s', steps[1..], t, e));
      }
    }
  }

  lemma InputStep(cfg: Config, s: Stage, e: nat, action: Action, sent: seq<Event>, taken: seq<Event>, left: seq<Event>)
    requires EngineEnabled(cfg, s, e, action) && EngineAfter(cfg, s, e, action).input + sent == taken + left
    ensures s.engines[e].input + (Sent(s.engines[e], action) + sent) == ChildTaken(s.engines[e], action) + taken + left
  {
    var q, q' := s.engines[e].input, EngineAfter(cfg, s, e, action).input;
    Regroup(q, Sent(s.engines[e], action), sent);
    Regroup(ChildTaken(s.engines[e], action), taken, left);
    assert q + Sent(s.engines[e], action) == ChildTaken(s.engines[e], action) + q';
    Regroup(ChildTaken(s.engines[e], action), q', sent);
  }

  lemma ResponseStep(cfg: Config, s: Stage, e: nat, action: Action,
                     put: seq<Event>, taken: seq<Event>, left: seq<Event>)
    requires EngineEnabled(cfg, s, e, action) && EngineAfter(cfg, s, e, action).response + put == taken + left
    ensures s.engines[e].response + (ChildPut(s.engines[e], action) + put)
         == ParentTaken(s.engines[e], action) + taken + left
  {
    var q, q' := s.engines[e].response, EngineAfter(cfg, s, e, action).response;
    Regroup(q, ChildPut(s.engines[e], action), put);
    Regroup(ParentTaken(s.engines[e], action), taken, left);
    assert q + ChildPut(s.engines[e], action) == ParentTaken(s.engines[e], action) + q';
    Regroup(ParentTaken(s.engines[e], action), q', put);
  }

  // ---------------------------------------------------------------------------
  // The loops
  // ---------------------------------------------------------------------------

  predicate ChildClosing(child: Child) {
    child.LastReply? || child.Exited? || child == Replying(Completed)
  }

  predicate ParentClosing(parent: Parent) {
    parent.Completing? || parent.Ended?
  }

  lemma {:induction false} ClosingTookCompletion(cfg: Config, s: Stage, steps: seq<Step>, t: Stage, e: nat)
    requires Runs(cfg, s, steps, t) && e < |s.engines| == |t.engines|
    ensures ChildClosing(t.engines[e].child) && !ChildClosing(s.engines[e].child) ==>
              Completed in Logged(ChildTaken, cfg, s, steps, t, e)
    ensures ParentClosing(t.engines[e].parent) && !ParentClosing(s.engines[e].parent) ==>
              Completed in Logged(ParentTaken, cfg, s, steps, t, e)
    decreases |steps|
  {
    if steps != [] {
      var s' := Apply(cfg, s, steps[0]);
      EnginesStay(cfg, s, steps[0]);
      ClosingTookCompletion(cfg, s', steps[1..], t, e);
      if steps[0].At? && steps[0].e == e {
        OwnStep(cfg, s, e, steps[0].action);
      } else {
        OthersLeaveAlone(cfg, s, steps[0], e);
      }
    }
  }

  lemma {:induction false} CompletedInStream(events: seq<Event>)
    ensures Completed in events <==> UntilCompleted(events) < |events|
  {
    if events != [] {
      CompletedInStream(events[1..]);
      assert events == [events[0]] + events[1..];
    }
  }

  lemma {:induction false} ChildLoopIsHandler(cfg: Config, events: seq<Event>)
    requires UntilCompleted(events) < |events|
    ensures ChildLoop(cfg, Waiting, events) == Answers(cfg, events[..UntilCompleted(events)]) + [Completed, Completed]
  {
    var n := UntilCompleted(events);
    if n > 0 {
      ChildLoopIsHandler(cfg, events[1..]);
      assert Answers(cfg, events[..n]) == [Answer(cfg, events[0])] + Answers(cfg, events[1..][..n - 1]);
    }
  }

  lemma {:induction false} ParentLoopIsHandler(events: seq<Event>)
    requires UntilCompleted(events) < |events|
    ensures ParentLoop(Listening, events)
         == Deliveries(events[..UntilCompleted(events)]) + [CallOnCompleted, CallOnCompleted]
  {
    var n := UntilCompleted(events);
    if n > 0 {
      ParentLoopIsHandler(events[1..]);
      assert Deliveries(events[..n]) == [CallOnNext(events[0].pkg)] + Deliveries(events[1..][..n - 1]);
    }
  }

  lemma TakenInOrder(cfg: Config, n: nat, steps: seq<Step>, t: Stage, e: nat)
    requires Reachable(cfg, n, steps, t) && e < n == |t.engines|
    ensures Logged(ChildTaken, cfg, Init(n), steps, t, e) <= Logged(Sent, cfg, Init(n), steps, t, e)
    ensures Logged(ParentTaken, cfg, Init(n), steps, t, e) <= Logged(ChildPut, cfg, Init(n), steps, t, e)
  {
    QueuesInOrder(cfg, Init(n), steps, t, e);
    Nothing(Logged(Sent, cfg, Init(n), steps, t, e));
    Nothing(Logged(ChildPut, cfg, Init(n), steps, t, e));
  }

  /** In every run in which an engine's child thread has ended, what it has put out is what its loop returns for
      the events it has taken; and these are the events sent to it, in order. */
  lemma ChildRunsItsLoop(cfg: Config, n: nat, steps: seq<Step>, t: Stage, e: nat)
    requires Reachable(cfg, n, steps, t) && e < n == |t.engines| && t.engines[e].child.Exited?
    ensures var taken := Logged(ChildTaken, cfg, Init(n), steps, t, e);
            && taken <= Logged(Sent, cfg, Init(n), steps, t, e)
            && UntilCompleted(taken) < |taken|
            && Logged(ChildPut, cfg, Init(n), steps, t, e)
               == Answers(cfg, taken[..UntilCompleted(taken)]) + [Completed, Completed]
  {
    var s := Init(n);
    var taken := Logged(ChildTaken, cfg, s, steps, t, e);
    ChildRuns(cfg, s, steps, t, e);
    TakenInOrder(cfg, n, steps, t, e);
    ClosingTookCompletion(cfg, s, steps, t, e);
    CompletedInStream(taken);
    assert Logged(ChildPut, cfg, s, steps, t, e) == ChildLoop(cfg, Waiting, taken);
    ChildLoopIsHandler(cfg, taken);
  }

  /** The same for the parent thread: what it has called is what its loop returns for the replies it has taken, and
      these are what the child has put out, in order. */
  lemma ParentRunsItsLoop(cfg: Config, n: nat, steps: seq<Step>, t: Stage, e: nat)
    requires Reachable(cfg, n, steps, t) && e < n == |t.engines| && t.engines[e].parent.Ended?
    ensures var taken := Logged(ParentTaken, cfg, Init(n), steps, t, e);
            && taken <= Logged(ChildPut, cfg, Init(n), steps, t, e)
            && UntilCompleted(taken) < |taken|
            && Logged(ParentCalls, cfg, Init(n), steps, t, e)
               == Deliveries(taken[..UntilCompleted(taken)]) + [CallOnCompleted, CallOnCompleted]
  {
    var s := Init(n);
    var taken := Logged(ParentTaken, cfg, s, steps, t, e);
    ParentRuns(cfg, s, steps, t, e);
    TakenInOrder(cfg, n, steps, t, e);
    ClosingTookCompletion(cfg, s, steps, t, e);
    CompletedInStream(taken);
    ParentLoopIsHandler(taken);
  }
}
