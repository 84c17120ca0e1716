// What the multiprocessing stage promises, over every number of engines and every interleaving.

module StageTheorems {
  import opened Wrappers
  import opened ControlMessages
  import opened StageModel
  import opened StageInvariant
  import opened StageSafety
  import opened StageDrain

  /** t is reached from a new stage with n engines by some interleaving. */
  ghost predicate Reachable(cfg: Config, n: nat, steps: seq<Step>, t: Stage) {
    Runs(cfg, Init(n), steps, t)
  }

  lemma ReachableInv(cfg: Config, n: nat, steps: seq<Step>, t: Stage)
    requires Reachable(cfg, n, steps, t)
    ensures Inv(cfg, t)
  {
    InvInitially(cfg, n);
    InvAlways(cfg, Init(n), steps, t);
  }

  /** Conservation: every message offered so far is in exactly one place, be it an upstream thread on its
      way to the pass-through queue, the ledger, the pass-through queue, the merge node or the output; and
      the ledger's keys are exactly the ids of the work packages in flight, one package each. */
  lemma Conservation(cfg: Config, n: nat, steps: seq<Step>, t: Stage)
    requires Reachable(cfg, n, steps, t)
    ensures forall ref: Ref | ref < |t.original| :: Places(t, ref) == 1
    ensures forall id: Id :: (id in t.ledger <==> InFlight(t, id) > 0) && InFlight(t, id) <= 1
    ensures forall id | id in t.ledger :: t.ledger[id] < |t.original|
  {
    ReachableInv(cfg, n, steps, t);
    forall ref: Ref | ref < |t.original| ensures Places(t, ref) == 1 {
    }
    forall id: Id ensures (id in t.ledger <==> InFlight(t, id) > 0) && InFlight(t, id) <= 1 {
      assert InFlight(t, id) == if id in t.ledger then 1 else 0;
    }
    assert LedgerContent(cfg, t);
    forall id | id in t.ledger ensures t.ledger[id] < |t.original| {
      assert Owned(cfg, t, id);
    }
  }

  /** The reconstruct node never pops a ledger key that is not there. */
  lemma ReconstructNeverMisses(cfg: Config, n: nat, steps: seq<Step>, t: Stage)
    requires Reachable(cfg, n, steps, t) && t.reconstruct != []
    ensures t.reconstruct[0].id in t.ledger
  {
    ReachableInv(cfg, n, steps, t);
    LedgerEntryThere(cfg, t);
  }

  /** Order and completion: an engine hands packages to the subscriber in the order in which it took their
      messages in; once it is about to call sub.on_completed for the first time it has handed on all of
      them, each once, and it takes nothing in any more. */
  lemma OrderAndCompletion(cfg: Config, n: nat, steps: seq<Step>, t: Stage, e: nat)
    requires Reachable(cfg, n, steps, t) && e < |t.engines|
    ensures t.engines[e].handed <= t.engines[e].accepted
    ensures t.engines[e].parent.Completing? || t.engines[e].completions > 0 ==>
              t.engines[e].handed == t.engines[e].accepted && t.engines[e].producer.Closed?
    ensures t.engines[e].completions <= 2
    ensures t.engines[e].parent.Ended? <==> t.engines[e].completions == 2
  {
    ReachableInv(cfg, n, steps, t);
    EngineOrder(t.engines[e]);
  }

  lemma EngineOrder(engine: Engine)
    requires EngineOk(engine)
    ensures engine.handed <= engine.accepted
    ensures engine.parent.Completing? || engine.completions > 0 ==>
              engine.handed == engine.accepted && engine.producer.Closed?
    ensures engine.completions <= 2
    ensures engine.parent.Ended? <==> engine.completions == 2
  {
    if engine.parent.Completing? || engine.completions > 0 {
      if engine.response != [] {
        Singleton(engine.response);
      }
      assert Line(engine) == [];
    }
  }

  // ---------------------------------------------------------------------------
  // Failures
  // ---------------------------------------------------------------------------

  /** What the worker makes of a message the stage takes in. */
  function Verdict(cfg: Config, m: Message): Outcome
    requires TakenIn(cfg, m)
  {
    cfg.process(Table(m.payload), TaskProps(cfg, m))
  }

  /** The stage spoils a message: the worker raises, or hands back something that is neither a data frame nor
      nothing, or hands back a trace timestamp that is none for a message with trace tagging. */
  predicate Spoiled(cfg: Config, m: Message) {
    TakenIn(cfg, m) && (Verdict(cfg, m).Raised? || Verdict(cfg, m).value.Foreign? || SpoiledLate(cfg, m))
  }

  /** It is spoiled when its new payload is already set. */
  predicate SpoiledLate(cfg: Config, m: Message) {
    && TakenIn(cfg, m) && Verdict(cfg, m).Returned? && !Verdict(cfg, m).value.Foreign?
    && Verdict(cfg, m).traceError.Some? && Tagged(m)
  }

  /** Every message that leaves the stage, in any interleaving, is the one owed for its own input. */
  lemma OutputIsExpected(cfg: Config, n: nat, steps: seq<Step>, t: Stage, i: nat)
    requires Reachable(cfg, n, steps, t) && i < |t.emitted|
    ensures t.emitted[i] < |t.original| == |t.heap|
    ensures t.heap[t.emitted[i]] == Expected(cfg, t.original[t.emitted[i]])
  {
    ReachableInv(cfg, n, steps, t);
    assert t.emitted[i] in t.emitted;
    assert Finished(cfg, t, t.emitted[i]);
  }

  /** What the stage owes for a message. */
  lemma FailureOfOne(cfg: Config, m: Message)
    ensures Failed(Expected(cfg, m)) <==> Failed(m) || Spoiled(cfg, m)
    ensures !TakenIn(cfg, m) ==> Expected(cfg, m) == m
    ensures TakenIn(cfg, m) ==> Expected(cfg, m).tasks == WithoutFirst(m.tasks, cfg.task)
    ensures Expected(cfg, m).payload ==
              if TakenIn(cfg, m) && Verdict(cfg, m).Returned? && Verdict(cfg, m).value.Table?
              then Verdict(cfg, m).value.frame else m.payload
  {
    var reasons := Expected(cfg, m).metadata;
    if Spoiled(cfg, m) {
      assert CM_FAILED in reasons && reasons[CM_FAILED] == Flag(true);
    }
  }

  /** Failure isolation: in every run of every number of engines, a message that has left the stage is failed
      exactly if it came failed or the stage spoiled this very message. One that was not taken in, as a failed
      one is not, has lost nothing; one that was taken in has lost one task. It carries the worker's data frame
      if the worker handed one back, also when it is spoiled after that, and else its old payload. */
  lemma FailureIsolation(cfg: Config, n: nat, steps: seq<Step>, t: Stage, i: nat)
    requires Reachable(cfg, n, steps, t) && i < |t.emitted|
    ensures t.emitted[i] < |t.original| == |t.heap|
    ensures var m, out := t.original[t.emitted[i]], t.heap[t.emitted[i]];
            && (Failed(out) <==> Failed(m) || Spoiled(cfg, m))
            && (!TakenIn(cfg, m) ==> out == m)
            && (TakenIn(cfg, m) ==> out.tasks == WithoutFirst(m.tasks, cfg.task))
            && out.payload == if TakenIn(cfg, m) && Verdict(cfg, m).Returned? && Verdict(cfg, m).value.Table?
                              then Verdict(cfg, m).value.frame else m.payload
  {
    OutputIsExpected(cfg, n, steps, t, i);
    FailureOfOne(cfg, t.original[t.emitted[i]]);
  }

  /** A message comes out failed with another payload exactly if it is spoiled late, by a trace timestamp that is none,
      after a data frame other than its own has been set. */
  lemma FailedWithNewPayloadIff(cfg: Config, n: nat, steps: seq<Step>, t: Stage, i: nat)
    requires Reachable(cfg, n, steps, t) && i < |t.emitted|
    ensures t.emitted[i] < |t.original| == |t.heap|
    ensures var m, out := t.original[t.emitted[i]], t.heap[t.emitted[i]];
            Failed(out) && out.payload != m.payload <==>
              SpoiledLate(cfg, m) && Verdict(cfg, m).value.Table? && Verdict(cfg, m).value.frame != m.payload
  {
    FailureIsolation(cfg, n, steps, t, i);
  }

  predicate SpoilsLate(cfg: Config) {
    && cfg.task == "extract" && cfg.accepts(PDF.props)
    && cfg.process(Table([]), PDF.props) == Returned(Table(["new"]), Some("Invalid timestamp"))
  }

  const tagged := Message([PDF], map[ADD_TRACE_TAGGING := Flag(true)], [])

  const fresh0 := Package(0, Table([]), PDF.props, None, None)

  const done0 := Package(0, Table(["new"]), PDF.props, None, Some("Invalid timestamp"))

  /** The stage with its one engine while the message is in the ledger. */
  function InLedger(engine: Engine, reconstruct: seq<Package>): Stage {
    Stage([engine], map[0 := 0], [], reconstruct, [], [], [tagged.(tasks := [])], [tagged])
  }

  predicate Leads(cfg: Config, s: Stage, step: Step, t: Stage) {
    Enabled(cfg, s, step) && Apply(cfg, s, step) == t
  }

  lemma OfferLeads(cfg: Config)
    requires SpoilsLate(cfg)
    ensures var engine := newEngine.(producer := Sending(OnNext(fresh0)), accepted := [0]);
            Leads(cfg, Init(1), At(0, Offer(tagged, 0)), InLedger(engine, []))
  {
    assert tagged.tasks[0].kind == "extract" && CM_FAILED !in tagged.metadata;
    assert FirstOfKind(tagged.tasks, "extract") == 0;
    assert WithoutFirst(tagged.tasks, "extract") == [];
    var engine := newEngine.(producer := Sending(OnNext(fresh0)), accepted := [0]);
    assert EngineAfter(cfg, Init(1), 0, Offer(tagged, 0)) == engine;
    assert Apply(cfg, Init(1), At(0, Offer(tagged, 0))).engines == [engine];
  }

  lemma EngineLeads(cfg: Config, engine: Engine, action: Action, engine': Engine)
    requires !action.Offer? && !action.PutPassThru? && !action.Deliver?
    requires EngineEnabled(cfg, InLedger(engine, []), 0, action)
    requires EngineAfter(cfg, InLedger(engine, []), 0, action) == engine'
    ensures Leads(cfg, InLedger(engine, []), At(0, action), InLedger(engine', []))
  {
    assert [engine][0 := engine'] == [engine'];
  }

  lemma ThreadsLead(cfg: Config)
    requires SpoilsLate(cfg)
    ensures var e1 := newEngine.(producer := Sending(OnNext(fresh0)), accepted := [0]);
            var e2 := newEngine.(input := [OnNext(fresh0)], accepted := [0]);
            var e3 := newEngine.(child := Working(fresh0), accepted := [0]);
            var e4 := newEngine.(child := Replying(OnNext(done0)), accepted := [0]);
            var e5 := newEngine.(response := [OnNext(done0)], accepted := [0]);
            var e6 := newEngine.(parent := Delivering(done0), accepted := [0]);
            && Leads(cfg, InLedger(e1, []), At(0, PutInput), InLedger(e2, []))
            && Leads(cfg, InLedger(e2, []), At(0, TakeInput), InLedger(e3, []))
            && Leads(cfg, InLedger(e3, []), At(0, Work), InLedger(e4, []))
            && Leads(cfg, InLedger(e4, []), At(0, PutResponse), InLedger(e5, []))
            && Leads(cfg, InLedger(e5, []), At(0, TakeResponse), InLedger(e6, []))
  {
    var e1 := newEngine.(producer := Sending(OnNext(fresh0)), accepted := [0]);
    var e2 := newEngine.(input := [OnNext(fresh0)], accepted := [0]);
    var e3 := newEngine.(child := Working(fresh0), accepted := [0]);
    var e4 := newEngine.(child := Replying(OnNext(done0)), accepted := [0]);
    var e5 := newEngine.(response := [OnNext(done0)], accepted := [0]);
    var e6 := newEngine.(parent := Delivering(done0), accepted := [0]);
    EngineLeads(cfg, e1, PutInput, e2);
    EngineLeads(cfg, e2, TakeInput, e3);
    EngineLeads(cfg, e3, Work, e4);
    EngineLeads(cfg, e4, PutResponse, e5);
    EngineLeads(cfg, e5, TakeResponse, e6);
  }

  const spoiled := SetFailure(tagged.(tasks := [], payload := ["new"]), "Error in cm_func: " + "Invalid timestamp")

  lemma DeliverLeads(cfg: Config)
    ensures var e6 := newEngine.(parent := Delivering(done0), accepted := [0]);
            var e7 := newEngine.(accepted := [0], handed := [0]);
            Leads(cfg, InLedger(e6, []), At(0, Deliver), InLedger(e7, [done0]))
  {
    var e6 := newEngine.(parent := Delivering(done0), accepted := [0]);
    var e7 := newEngine.(accepted := [0], handed := [0]);
    assert EngineAfter(cfg, InLedger(e6, []), 0, Deliver) == e7;
    assert [e6][0 := e7] == [e7] && [] + [done0] == [done0];
  }

  lemma NodesLead(cfg: Config)
    ensures var e7 := newEngine.(accepted := [0], handed := [0]);
            var s8 := Stage([e7], map[], [], [], [0], [], [spoiled], [tagged]);
            && Leads(cfg, InLedger(e7, [done0]), Reconstruct, s8)
            && Leads(cfg, s8, Merge, Stage([e7], map[], [], [], [], [0], [spoiled], [tagged]))
  {
    assert CM_FAILED !in tagged.metadata;
    assert Completion(tagged.(tasks := []), done0) == spoiled;
    assert map[0 := 0] - {0} == map[];
  }

  lemma {:induction false} ChainRuns(cfg: Config, states: seq<Stage>, steps: seq<Step>)
    requires |states| == |steps| + 1
    requires forall i | 0 <= i < |steps| :: Leads(cfg, states[i], steps[i], states[i + 1])
    ensures Runs(cfg, states[0], steps, states[|steps|])
    decreases |steps|
  {
    if steps != [] {
      assert Leads(cfg, states[0], steps[0], states[1]);
      forall i | 0 <= i < |steps[1..]| ensures Leads(cfg, states[1..][i], steps[1..][i], states[1..][i + 1]) {
        assert Leads(cfg, states[i + 1], steps[i + 1], states[i + 2]);
      }
      ChainRuns(cfg, states[1..], steps[1..]);
    }
  }

  function LateStates(): seq<Stage> {
    [Init(1),
     InLedger(newEngine.(producer := Sending(OnNext(fresh0)), accepted := [0]), []),
     InLedger(newEngine.(input := [OnNext(fresh0)], accepted := [0]), []),
     InLedger(newEngine.(child := Working(fresh0), accepted := [0]), []),
     InLedger(newEngine.(child := Replying(OnNext(done0)), accepted := [0]), []),
     InLedger(newEngine.(response := [OnNext(done0)], accepted := [0]), []),
     InLedger(newEngine.(parent := Delivering(done0), accepted := [0]), []),
     InLedger(newEngine.(accepted := [0], handed := [0]), [done0]),
     Stage([newEngine.(accepted := [0], handed := [0])], map[], [], [], [0], [], [spoiled], [tagged]),
     Stage([newEngine.(accepted := [0], handed := [0])], map[], [], [], [], [0], [spoiled], [tagged])]
  }

  function LateSteps(): seq<Step> {
    [At(0, Offer(tagged, 0)), At(0, PutInput), At(0, TakeInput), At(0, Work), At(0, PutResponse),
     At(0, TakeResponse), At(0, Deliver), Reconstruct, Merge]
  }

  lemma LateLeads(cfg: Config, i: nat)
    requires SpoilsLate(cfg) && i < |LateSteps()|
    ensures Leads(cfg, LateStates()[i], LateSteps()[i], LateStates()[i + 1])
  {
    if i == 0 {
      OfferLeads(cfg);
    } else if i < 6 {
      ThreadsLead(cfg);
    } else if i == 6 {
      DeliverLeads(cfg);
    } else {
      NodesLead(cfg);
    }
  }

  lemma SpoiledIsFailed()
    ensures !Failed(tagged) && tagged.payload == [] && Failed(spoiled) && spoiled.payload == ["new"]
  {
    assert CM_FAILED !in tagged.metadata;
  }

  /** A run after which a message with trace tagging has left the stage failed and with a new payload: the worker has
      handed back a data frame, and beside it something that is no timestamp. */
  lemma LateSpoilRun(cfg: Config) returns (steps: seq<Step>, t: Stage)
    requires SpoilsLate(cfg)
    ensures Reachable(cfg, 1, steps, t) && t.emitted == [0] && t.original == [tagged] && t.heap == [spoiled]
    ensures !Failed(tagged) && tagged.payload == [] && Failed(spoiled) && spoiled.payload == ["new"]
  {
    steps := LateSteps();
    t := LateStates()[9];
    forall i | 0 <= i < |LateSteps()| ensures Leads(cfg, LateStates()[i], LateSteps()[i], LateStates()[i + 1]) {
      LateLeads(cfg, i);
    }
    ChainRuns(cfg, LateStates(), steps);
    SpoiledIsFailed();
  }

  /** A message that comes failed, or that no task of the stage lets in, is never in the ledger, and no package
      is made of it. */
  lemma FailedNeverInLedger(cfg: Config, n: nat, steps: seq<Step>, t: Stage, ref: Ref)
    requires Reachable(cfg, n, steps, t) && ref < |t.original| && !TakenIn(cfg, t.original[ref])
    ensures forall id | id in t.ledger :: t.ledger[id] != ref
    ensures forall id: Id :: InFlight(t, id) > 0 ==> id in t.ledger && t.ledger[id] != ref
  {
    ReachableInv(cfg, n, steps, t);
    assert LedgerContent(cfg, t);
    forall id | id in t.ledger ensures t.ledger[id] != ref {
      assert Owned(cfg, t, id);
    }
    forall id: Id | InFlight(t, id) > 0 ensures id in t.ledger && t.ledger[id] != ref {
      assert InFlight(t, id) == if id in t.ledger then 1 else 0;
    }
  }

  // ---------------------------------------------------------------------------
  // The task that is handed to the worker
  // ---------------------------------------------------------------------------

  /** The filter looks for any acceptable task of the kind, while the worker is handed the properties of the first of
      the kind: in every run, a package at a worker is of a message in the ledger and carries the properties of its
      first task of the kind. If the filter rejects them, it has let the message in for another task behind. */
  lemma WorkerGetsFirstTask(cfg: Config, n: nat, steps: seq<Step>, t: Stage, e: nat)
    requires Reachable(cfg, n, steps, t) && e < |t.engines| && t.engines[e].child.Working?
    ensures var pkg := t.engines[e].child.pkg;
            && pkg.id in t.ledger && t.ledger[pkg.id] < |t.original|
            && var tasks := t.original[t.ledger[pkg.id]].tasks;
               var first := FirstOfKind(tasks, cfg.task);
               && first < |tasks| && pkg.props == tasks[first].props
               && (!cfg.accepts(pkg.props) ==>
                     exists i :: first < i < |tasks| && tasks[i].kind == cfg.task && cfg.accepts(tasks[i].props))
  {
    FreshAtWorker(cfg, n, steps, t, e);
    FilterLooksFurther(t.original[t.ledger[t.engines[e].child.pkg.id]].tasks, cfg.task, cfg.accepts);
  }

  lemma FreshAtWorker(cfg: Config, n: nat, steps: seq<Step>, t: Stage, e: nat)
    requires Reachable(cfg, n, steps, t) && e < |t.engines| && t.engines[e].child.Working?
    ensures Fresh(cfg, t, t.engines[e].child.pkg)
  {
    ReachableInv(cfg, n, steps, t);
    assert EngineContent(cfg, t, t.engines[e]);
  }

  const PDF := Task("extract", "0", map["document_type" := "pdf"])
  const DOCX := Task("extract", "1", map["document_type" := "docx"])

  predicate IsDocx(props: Props) {
    "document_type" in props && props["document_type"] == "docx"
  }

  lemma RunsFirst(cfg: Config, s: Stage, step: Step, rest: seq<Step>, t: Stage)
    requires Enabled(cfg, s, step) && Runs(cfg, Apply(cfg, s, step), rest, t)
    ensures Runs(cfg, s, [step] + rest, t)
  {
    assert ([step] + rest)[1..] == rest;
  }

  /** A stage for docx tasks is offered a message with a pdf task before its docx task; three steps later its
      worker holds the properties of the pdf task. */
  lemma WorkerGetsRejectedProps(cfg: Config) returns (steps: seq<Step>, t: Stage)
    requires cfg.task == "extract" && forall props :: cfg.accepts(props) == IsDocx(props)
    ensures Reachable(cfg, 1, steps, t) && |t.engines| == 1
    ensures t.engines[0].child.Working? && t.engines[0].child.pkg.props == PDF.props
    ensures !cfg.accepts(t.engines[0].child.pkg.props)
  {
    var m := Message([PDF, DOCX], map[], []);
    assert m.tasks[1].kind == "extract" && cfg.accepts(m.tasks[1].props);
    assert PDF.props["document_type"][0] == 'p' && "docx"[0] == 'd';
    var s0 := Init(1);
    var offer := At(0, Offer(m, 0));
    var s1 := Apply(cfg, s0, offer);
    var s2 := Apply(cfg, s1, At(0, PutInput));
    t := Apply(cfg, s2, At(0, TakeInput));
    RunsFirst(cfg, s2, At(0, TakeInput), [], t);
    RunsFirst(cfg, s1, At(0, PutInput), [At(0, TakeInput)], t);
    RunsFirst(cfg, s0, offer, [At(0, PutInput), At(0, TakeInput)], t);
    steps := [offer, At(0, PutInput), At(0, TakeInput)];
    assert [offer] + ([At(0, PutInput)] + ([At(0, TakeInput)] + [])) == steps;
  }

  function Through(stages: seq<Config>, m: Message): Message {
    if stages == [] then m else Through(stages[1..], Expected(stages[0], m))
  }

  /** Along a chain of stages a failed message passes every further stage untouched: cm_failed is never
      cleared, no task is consumed, nothing is processed. */
  lemma {:induction false} FailedStaysFailed(stages: seq<Config>, m: Message, k: nat)
    requires k <= |stages| && Failed(Through(stages[..k], m))
    ensures Through(stages, m) == Through(stages[..k], m)
  {
    if stages == [] {
      assert stages[..k] == [];
    } else if k == 0 {
      assert stages[..k] == [];
      assert stages[1..][..0] == [];
      assert !TakenIn(stages[0], m);
      FailedStaysFailed(stages[1..], m, 0);
    } else {
      assert stages[..k][1..] == stages[1..][..k - 1];
      assert stages[..k][0] == stages[0];
      FailedStaysFailed(stages[1..], Expected(stages[0], m), k - 1);
    }
  }

  // ---------------------------------------------------------------------------
  // Draining
  // ---------------------------------------------------------------------------

  /** Left to itself from any reachable state, the stage takes at most Distance many steps, and when no step
      of its own is left it is quiet: nothing is stuck in it. */
  lemma Drains(cfg: Config, n: nat, before: seq<Step>, s: Stage, steps: seq<Step>, t: Stage)
    requires Reachable(cfg, n, before, s) && Runs(cfg, s, steps, t) && AllInternal(steps)
    ensures |steps| <= Distance(s)
    ensures (forall step | Internal(step) :: !Enabled(cfg, t, step)) ==> Quiet(t)
  {
    ReachableInv(cfg, n, before, s);
    RunsAreBounded(cfg, s, steps, t);
    InvAlways(cfg, s, steps, t);
    if !Quiet(t) {
      var step := Progress(cfg, t);
    }
  }

  function Owed(cfg: Config, ms: seq<Message>): seq<Message> {
    seq(|ms|, i requires 0 <= i < |ms| => Expected(cfg, ms[i]))
  }

  function Output(t: Stage): seq<Message>
    requires forall i | 0 <= i < |t.emitted| :: t.emitted[i] < |t.heap|
  {
    seq(|t.emitted|, i requires 0 <= i < |t.emitted| => t.heap[t.emitted[i]])
  }

  function UpTo(n: nat): seq<nat> {
    seq(n, i requires 0 <= i < n => i)
  }

  function Pick<T>(refs: seq<nat>, xs: seq<T>): seq<T>
    requires forall i | 0 <= i < |refs| :: refs[i] < |xs|
  {
    seq(|refs|, i requires 0 <= i < |refs| => xs[refs[i]])
  }

  function Without<T>(xs: seq<T>, j: nat): seq<T>
    requires j < |xs|
  {
    xs[..j] + xs[j + 1..]
  }

  lemma WithoutOne<T>(xs: seq<T>, j: nat)
    requires j < |xs|
    ensures multiset(xs) == multiset(Without(xs, j)) + multiset{xs[j]}
  {
    assert xs == xs[..j] + [xs[j]] + xs[j + 1..];
  }

  lemma PickWithout<T>(a: seq<nat>, j: nat, xs: seq<T>)
    requires j < |a|
    requires forall i | 0 <= i < |a| :: a[i] < |xs|
    ensures forall i | 0 <= i < |Without(a, j)| :: Without(a, j)[i] < |xs|
    ensures multiset(Pick(a, xs)) == multiset(Pick(Without(a, j), xs)) + multiset{xs[a[j]]}
  {
    WithoutOne(Pick(a, xs), j);
    assert Without(Pick(a, xs), j) == Pick(Without(a, j), xs);
  }

  lemma {:induction false} PickPermutation<T>(a: seq<nat>, b: seq<nat>, xs: seq<T>)
    requires multiset(a) == multiset(b)
    requires forall i | 0 <= i < |a| :: a[i] < |xs|
    requires forall i | 0 <= i < |b| :: b[i] < |xs|
    ensures multiset(Pick(a, xs)) == multiset(Pick(b, xs))
    decreases |a|
  {
    if a == [] {
      assert |multiset(b)| == 0;
      assert b == [];
    } else {
      var j := FindFirst(a, b);
      PickWithout(a, 0, xs);
      PickWithout(b, j, xs);
      PickPermutation(Without(a, 0), Without(b, j), xs);
    }
  }

  lemma FindFirst(a: seq<nat>, b: seq<nat>) returns (j: nat)
    requires a != [] && multiset(a) == multiset(b)
    ensures j < |b| && b[j] == a[0] && multiset(Without(a, 0)) == multiset(Without(b, j))
  {
    assert a[0] in multiset(b);
    j :| 0 <= j < |b| && b[j] == a[0];
    WithoutOne(a, 0);
    WithoutOne(b, j);
    assert multiset(Without(a, 0)) == multiset(a) - multiset{a[0]} == multiset(Without(b, j));
  }

  lemma {:induction false} UpToOnce(n: nat, x: nat)
    ensures multiset(UpTo(n))[x] == if x < n then 1 else 0
  {
    if n > 0 {
      UpToOnce(n - 1, x);
      assert UpTo(n) == UpTo(n - 1) + [n - 1];
    }
  }

  lemma EmittedOnce(cfg: Config, t: Stage, ref: Ref)
    requires Inv(cfg, t) && Quiet(t)
    ensures multiset(t.emitted)[ref] == if ref < |t.original| then 1 else 0
  {
    LedgerEmptyWhenQuiet(t);
    assert Places(t, ref) == if ref < |t.original| then 1 else 0;
    OnlyEmittedWhenQuiet(t, ref);
  }

  lemma OnlyEmittedWhenQuiet(t: Stage, ref: Ref)
    requires Quiet(t) && t.ledger == map[]
    ensures Places(t, ref) == multiset(t.emitted)[ref]
  {
    forall e | 0 <= e < |t.engines| ensures ForwardRefs(t.engines[e])[ref] == 0 {
      assert EngineQuiet(t.engines[e]);
    }
    HeldByNone(ForwardRefs, t.engines, ref);
    assert Pointing(t.ledger, ref) == {};
  }

  lemma LedgerEmptyWhenQuiet(t: Stage)
    requires IdsMatchLedger(t) && Quiet(t)
    ensures t.ledger == map[]
  {
    forall id: Id ensures id !in t.ledger {
      forall e | 0 <= e < |t.engines| ensures LineIds(t.engines[e])[id] == 0 {
        assert EngineQuiet(t.engines[e]);
      }
      HeldByNone(LineIds, t.engines, id);
      assert InFlight(t, id) == 0;
    }
  }

  lemma AllEmittedWhenQuiet(cfg: Config, t: Stage)
    requires Inv(cfg, t) && Quiet(t)
    ensures multiset(t.emitted) == multiset(UpTo(|t.original|))
  {
    var emitted: multiset<Ref> := multiset(t.emitted);
    var every: multiset<Ref> := multiset(UpTo(|t.original|));
    forall ref: Ref ensures emitted[ref] == every[ref] {
      EmittedOnce(cfg, t, ref);
      UpToOnce(|t.original|, ref);
    }
  }

  lemma OutputIsOwed(cfg: Config, t: Stage)
    requires forall i | 0 <= i < |t.emitted| :: t.emitted[i] < |t.original| == |t.heap|
    requires forall i | 0 <= i < |t.emitted| :: t.heap[t.emitted[i]] == Expected(cfg, t.original[t.emitted[i]])
    requires multiset(t.emitted) == multiset(UpTo(|t.original|))
    ensures multiset(Output(t)) == multiset(Owed(cfg, t.original))
  {
    var owed := Owed(cfg, t.original);
    PickPermutation(t.emitted, UpTo(|t.original|), owed);
    assert Output(t) == Pick(t.emitted, owed);
    assert owed == Pick(UpTo(|t.original|), owed);
  }

  /** The stage refines the pointwise map: once a reachable stage is quiet its ledger is empty, and what it
      has emitted is a permutation of what it owes for the messages offered to it. */
  lemma QuietStageIsPointwise(cfg: Config, n: nat, steps: seq<Step>, t: Stage)
    requires Reachable(cfg, n, steps, t) && Quiet(t)
    ensures t.ledger == map[]
    ensures forall i | 0 <= i < |t.emitted| :: t.emitted[i] < |t.heap|
    ensures multiset(Output(t)) == multiset(Owed(cfg, t.original))
  {
    ReachableInv(cfg, n, steps, t);
    LedgerEmptyWhenQuiet(t);
    forall i | 0 <= i < |t.emitted|
      ensures t.emitted[i] < |t.original| == |t.heap|
      ensures t.heap[t.emitted[i]] == Expected(cfg, t.original[t.emitted[i]])
    {
      OutputIsExpected(cfg, n, steps, t, i);
    }
    AllEmittedWhenQuiet(cfg, t);
    OutputIsOwed(cfg, t);
  }
}
