// What every step of the multiprocessing stage keeps.

module StageInvariant {
  import opened ControlMessages
  import opened StageModel

  // ---------------------------------------------------------------------------
  // The packages of one engine, in the order in which they will reach the subscriber
  // ---------------------------------------------------------------------------

  function EventIds(ev: Event): seq<Id> {
    if ev.Completed? then [] else [ev.pkg.id]
  }

  function QueueIds(q: seq<Event>): seq<Id> {
    if q == [] then [] else EventIds(q[0]) + QueueIds(q[1..])
  }

  function ProducerIds(p: Producer): seq<Id> {
    if p.Sending? then EventIds(p.ev) else []
  }

  function ChildIds(c: Child): seq<Id> {
    match c
    case Working(pkg) => [pkg.id]
    case Replying(ev) => EventIds(ev)
    case _ => []
  }

  function ParentIds(p: Parent): seq<Id> {
    if p.Delivering? then [p.pkg.id] else []
  }

  function Line(engine: Engine): seq<Id> {
    Joined(ParentIds(engine.parent), QueueIds(engine.response), ChildIds(engine.child),
           QueueIds(engine.input), ProducerIds(engine.producer))
  }

  function Joined(a: seq<Id>, b: seq<Id>, c: seq<Id>, d: seq<Id>, e: seq<Id>): seq<Id> {
    a + b + c + d + e
  }

  lemma Shift(a: seq<Id>, b: seq<Id>, c: seq<Id>, d: seq<Id>, x: seq<Id>)
    ensures Joined(a, b, c, x, []) == Joined(a, b, c, [], x)
    ensures Joined(a, b, [], x, d) == Joined(a, b, x, [], d)
    ensures Joined(a, [], x, c, d) == Joined(a, x, [], c, d)
    ensures Joined([], x, b, c, d) == Joined(x, [], b, c, d)
    ensures Joined(x, a, b, c, d) == x + Joined([], a, b, c, d)
    ensures Joined(a, b, c, d, x) == Joined(a, b, c, d, []) + x
  {
  }

  function ForwardRefs(engine: Engine): multiset<Ref> {
    if engine.producer.Forwarding? then multiset{engine.producer.ref} else multiset{}
  }

  // ---------------------------------------------------------------------------
  // One engine
  // ---------------------------------------------------------------------------

  predicate NoCompletion(q: seq<Event>) {
    forall i | 0 <= i < |q| :: !q[i].Completed?
  }

  /** No completion event has left the child thread. */
  predicate ChildOpen(engine: Engine) {
    (engine.child.Waiting? || engine.child.Working? || engine.child.Replying?)
    && NoCompletion(engine.response)
    && (engine.parent.Listening? || engine.parent.Delivering?)
    && engine.completions == 0
  }

  predicate ParentClosing(engine: Engine) {
    match engine.parent
    case Completing(calls) => 1 <= calls <= 2 && engine.completions == 2 - calls
    case Ended => engine.completions == 2
    case _ => false
  }

  /** Where the completion event is: upstream has not sent it, or it waits in the input queue, or the child
      passes it on, or it waits in the response queue, or the parent has taken it. */
  predicate CompletionInPlace(engine: Engine) {
    if !engine.producer.Closed? then
      (engine.producer.Sending? ==> !engine.producer.ev.OnError?)
      && NoCompletion(engine.input) && ChildOpen(engine)
      && (engine.child.Replying? ==> !engine.child.ev.Completed?)
    else if engine.input != [] then
      ChildOpen(engine) && engine.input[0].Completed? && (engine.child.Replying? ==> !engine.child.ev.Completed?)
    else
      || (engine.child == Replying(Completed) && ChildOpen(engine))
      || (engine.child.LastReply? && engine.response == [Completed] && engine.completions == 0
          && (engine.parent.Listening? || engine.parent.Delivering?))
      || (engine.child.LastReply? && engine.response == [] && ParentClosing(engine))
      || (engine.child.Exited? && engine.response == [Completed] && ParentClosing(engine))
  }

  predicate QueuesBounded(engine: Engine) {
    |engine.input| <= MAX_QUEUE_SIZE && |engine.response| <= MAX_QUEUE_SIZE
  }

  ghost predicate EngineOk(engine: Engine) {
    && QueuesBounded(engine)
    && NoErrorUpstream(engine.input)
    && engine.accepted == engine.handed + Line(engine)
    && CompletionInPlace(engine)
  }

  ghost predicate AllOk(engines: seq<Engine>) {
    forall e | 0 <= e < |engines| :: EngineOk(engines[e])
  }

  ghost predicate AllQueuesBounded(engines: seq<Engine>) {
    forall e | 0 <= e < |engines| :: QueuesBounded(engines[e])
  }

  predicate NoErrorUpstream(q: seq<Event>) {
    forall i | 0 <= i < |q| :: !q[i].OnError?
  }

  lemma Singleton(q: seq<Event>)
    requires 0 < |q| <= MAX_QUEUE_SIZE
    ensures q == [q[0]] && q[1..] == [] && QueueIds(q) == EventIds(q[0])
  {
  }

  /** How an action changes the line of its engine. */
  ghost predicate Moves(cfg: Config, s: Stage, e: nat, action: Action)
    requires EngineEnabled(cfg, s, e, action)
  {
    var before, after := Line(s.engines[e]), Line(EngineAfter(cfg, s, e, action));
    if action.Offer? && TakenIn(cfg, action.msg) then after == before + [action.id]
    else if action.Deliver? then before == [s.engines[e].parent.pkg.id] + after
    else after == before
  }

  lemma ProducerMoves(cfg: Config, s: Stage, e: nat, action: Action)
    requires EngineEnabled(cfg, s, e, action) && QueuesBounded(s.engines[e])
    requires action.Offer? || action.UpstreamDone? || action.PutPassThru? || action.PutInput?
    ensures Moves(cfg, s, e, action)
  {
    var engine := s.engines[e];
    var engine' := EngineAfter(cfg, s, e, action);
    var parent, response, child := ParentIds(engine.parent), QueueIds(engine.response), ChildIds(engine.child);
    Shift(parent, response, child, QueueIds(engine.input), ProducerIds(engine'.producer));
    Shift(parent, response, child, [], ProducerIds(engine.producer));
    if action.PutInput? {
      Singleton(engine'.input);
    }
  }

  lemma TakeInputMoves(cfg: Config, s: Stage, e: nat)
    requires EngineEnabled(cfg, s, e, TakeInput) && QueuesBounded(s.engines[e])
    ensures Moves(cfg, s, e, TakeInput)
  {
    var engine := s.engines[e];
    Singleton(engine.input);
    Shift(ParentIds(engine.parent), QueueIds(engine.response), [],
          ProducerIds(engine.producer), QueueIds(engine.input));
  }

  lemma PutResponseMoves(cfg: Config, s: Stage, e: nat)
    requires EngineEnabled(cfg, s, e, PutResponse) && QueuesBounded(s.engines[e])
    ensures Moves(cfg, s, e, PutResponse)
  {
    var engine := s.engines[e];
    Singleton(EngineAfter(cfg, s, e, PutResponse).response);
    Shift(ParentIds(engine.parent), [], QueueIds(engine.input), ProducerIds(engine.producer), ChildIds(engine.child));
  }

  lemma ChildMoves(cfg: Config, s: Stage, e: nat, action: Action)
    requires EngineEnabled(cfg, s, e, action) && QueuesBounded(s.engines[e])
    requires action.TakeInput? || action.Work? || action.PutResponse?
    ensures Moves(cfg, s, e, action)
  {
    if action.TakeInput? {
      TakeInputMoves(cfg, s, e);
    } else if action.PutResponse? {
      PutResponseMoves(cfg, s, e);
    }
  }

  lemma ParentMoves(cfg: Config, s: Stage, e: nat, action: Action)
    requires EngineEnabled(cfg, s, e, action) && QueuesBounded(s.engines[e])
    requires action.TakeResponse? || action.Deliver? || action.SubCompleted?
    ensures Moves(cfg, s, e, action)
  {
    var engine := s.engines[e];
    var child, input, producer := ChildIds(engine.child), QueueIds(engine.input), ProducerIds(engine.producer);
    if action.TakeResponse? {
      Singleton(engine.response);
      Shift([], child, input, producer, QueueIds(engine.response));
    } else if action.Deliver? {
      Shift(QueueIds(engine.response), child, input, producer, ParentIds(engine.parent));
    }
  }

  /** A step of an engine moves packages along its line, adds one at the end or takes one off the front. */
  lemma LineMoves(cfg: Config, s: Stage, e: nat, action: Action)
    requires EngineEnabled(cfg, s, e, action) && QueuesBounded(s.engines[e])
    ensures Moves(cfg, s, e, action)
  {
    if action.TakeInput? || action.Work? || action.PutResponse? {
      ChildMoves(cfg, s, e, action);
    } else if action.TakeResponse? || action.Deliver? || action.SubCompleted? {
      ParentMoves(cfg, s, e, action);
    } else {
      ProducerMoves(cfg, s, e, action);
    }
  }

  lemma CompletionByProducer(cfg: Config, s: Stage, e: nat, action: Action)
    requires EngineEnabled(cfg, s, e, action) && EngineOk(s.engines[e])
    requires action.Offer? || action.UpstreamDone? || action.PutPassThru? || action.PutInput?
    ensures CompletionInPlace(EngineAfter(cfg, s, e, action))
    ensures NoErrorUpstream(EngineAfter(cfg, s, e, action).input)
  {
  }

  lemma CompletionByChild(cfg: Config, s: Stage, e: nat, action: Action)
    requires EngineEnabled(cfg, s, e, action) && EngineOk(s.engines[e])
    requires action.TakeInput? || action.Work? || action.PutResponse?
    ensures CompletionInPlace(EngineAfter(cfg, s, e, action))
    ensures NoErrorUpstream(EngineAfter(cfg, s, e, action).input)
  {
    if action.TakeInput? {
      Singleton(s.engines[e].input);
    }
  }

  lemma CompletionByParent(cfg: Config, s: Stage, e: nat, action: Action)
    requires EngineEnabled(cfg, s, e, action) && EngineOk(s.engines[e])
    requires action.TakeResponse? || action.Deliver? || action.SubCompleted?
    ensures CompletionInPlace(EngineAfter(cfg, s, e, action))
    ensures NoErrorUpstream(EngineAfter(cfg, s, e, action).input)
  {
    if action.TakeResponse? {
      Singleton(s.engines[e].response);
    }
  }

  lemma CompletionStaysInPlace(cfg: Config, s: Stage, e: nat, action: Action)
    requires EngineEnabled(cfg, s, e, action) && EngineOk(s.engines[e])
    ensures CompletionInPlace(EngineAfter(cfg, s, e, action))
    ensures NoErrorUpstream(EngineAfter(cfg, s, e, action).input)
  {
    match action
    case Offer(_, _) => CompletionByProducer(cfg, s, e, action);
    case UpstreamDone => CompletionByProducer(cfg, s, e, action);
    case PutPassThru => CompletionByProducer(cfg, s, e, action);
    case PutInput => CompletionByProducer(cfg, s, e, action);
    case TakeInput => CompletionByChild(cfg, s, e, action);
    case Work => CompletionByChild(cfg, s, e, action);
    case PutResponse => CompletionByChild(cfg, s, e, action);
    case _ => CompletionByParent(cfg, s, e, action);
  }

  lemma EngineOkKept(cfg: Config, s: Stage, e: nat, action: Action)
    requires EngineEnabled(cfg, s, e, action) && EngineOk(s.engines[e])
    ensures EngineOk(EngineAfter(cfg, s, e, action))
  {
    AcceptedStaysLine(cfg, s, e, action);
    QueuesStayBounded(cfg, s, e, action);
    CompletionStaysInPlace(cfg, s, e, action);
  }

  lemma AcceptedStaysLine(cfg: Config, s: Stage, e: nat, action: Action)
    requires EngineEnabled(cfg, s, e, action) && QueuesBounded(s.engines[e])
    requires s.engines[e].accepted == s.engines[e].handed + Line(s.engines[e])
    ensures var engine := EngineAfter(cfg, s, e, action); engine.accepted == engine.handed + Line(engine)
  {
    var engine, engine' := s.engines[e], EngineAfter(cfg, s, e, action);
    var before, after := Line(engine), Line(engine');
    LineMoves(cfg, s, e, action);
    HistoriesMove(cfg, s, e, action);
    if action.Offer? && TakenIn(cfg, action.msg) {
      assert engine.handed + before + [action.id] == engine.handed + (before + [action.id]);
    } else if action.Deliver? {
      var id := engine.parent.pkg.id;
      assert engine.handed + ([id] + after) == engine.handed + [id] + after;
    }
  }

  lemma HistoriesMove(cfg: Config, s: Stage, e: nat, action: Action)
    requires EngineEnabled(cfg, s, e, action)
    ensures var engine, engine' := s.engines[e], EngineAfter(cfg, s, e, action);
            && engine'.accepted == engine.accepted +
                 (if action.Offer? && TakenIn(cfg, action.msg) then [action.id] else [])
            && engine'.handed == engine.handed + if action.Deliver? then [engine.parent.pkg.id] else []
  {
  }

  lemma QueuesStayBounded(cfg: Config, s: Stage, e: nat, action: Action)
    requires EngineEnabled(cfg, s, e, action) && QueuesBounded(s.engines[e])
    ensures QueuesBounded(EngineAfter(cfg, s, e, action))
  {
  }

  // ---------------------------------------------------------------------------
  // All engines
  // ---------------------------------------------------------------------------

  /** How often the engines together hold x, each holding what f says. */
  function Held(f: Engine -> multiset<nat>, engines: seq<Engine>, x: nat): nat {
    if engines == [] then 0 else f(engines[0])[x] + Held(f, engines[1..], x)
  }

  lemma {:induction false} HeldUpdate(f: Engine -> multiset<nat>, engines: seq<Engine>, e: nat, engine: Engine, x: nat)
    requires e < |engines|
    ensures Held(f, engines[e := engine], x) + f(engines[e])[x] == Held(f, engines, x) + f(engine)[x]
  {
    if e == 0 {
      assert engines[e := engine][1..] == engines[1..];
    } else {
      HeldUpdate(f, engines[1..], e - 1, engine, x);
      assert engines[e := engine][1..] == engines[1..][e - 1 := engine];
    }
  }

  lemma {:induction false} HeldCovers(f: Engine -> multiset<nat>, engines: seq<Engine>, e: nat, x: nat)
    requires e < |engines|
    ensures f(engines[e])[x] <= Held(f, engines, x)
  {
    if e > 0 {
      HeldCovers(f, engines[1..], e - 1, x);
    }
  }

  lemma {:induction false} HeldByNone(f: Engine -> multiset<nat>, engines: seq<Engine>, x: nat)
    requires forall e | 0 <= e < |engines| :: f(engines[e])[x] == 0
    ensures Held(f, engines, x) == 0
  {
    if engines != [] {
      HeldByNone(f, engines[1..], x);
    }
  }

  // ---------------------------------------------------------------------------
  // Where the packages and the messages are
  // ---------------------------------------------------------------------------

  function PackageIds(pkgs: seq<Package>): seq<Id> {
    seq(|pkgs|, i requires 0 <= i < |pkgs| => pkgs[i].id)
  }

  function LineIds(engine: Engine): multiset<nat> {
    multiset(Line(engine))
  }

  /** How many work packages between on_next and the reconstruct node carry this id. */
  function InFlight(s: Stage, id: Id): nat {
    Held(LineIds, s.engines, id) + multiset(PackageIds(s.reconstruct))[id]
  }

  function LedgerCount(ledger: map<Id, Ref>, ref: Ref): nat {
    |Pointing(ledger, ref)|
  }

  function Pointing(ledger: map<Id, Ref>, ref: Ref): set<Id> {
    set id | id in ledger && ledger[id] == ref
  }

  lemma LedgerCountInsert(ledger: map<Id, Ref>, id: Id, target: Ref, ref: Ref)
    requires id !in ledger
    ensures LedgerCount(ledger[id := target], ref) == LedgerCount(ledger, ref) + (if ref == target then 1 else 0)
  {
    var before, after := Pointing(ledger, ref), Pointing(ledger[id := target], ref);
    assert after == if ref == target then before + {id} else before;
  }

  lemma LedgerCountRemove(ledger: map<Id, Ref>, id: Id, ref: Ref)
    requires id in ledger
    ensures LedgerCount(ledger, ref) == LedgerCount(ledger - {id}, ref) + (if ref == ledger[id] then 1 else 0)
  {
    LedgerCountInsert(ledger - {id}, id, ledger[id], ref);
    assert (ledger - {id})[id := ledger[id]] == ledger;
  }

  /** In how many places of the stage this message is. */
  function Places(s: Stage, ref: Ref): nat {
    Held(ForwardRefs, s.engines, ref) + LedgerCount(s.ledger, ref)
    + multiset(s.passThru)[ref] + multiset(s.merge)[ref] + multiset(s.emitted)[ref]
  }

  /** The ledger's keys are exactly the ids of the packages in flight, each carried by one package. */
  ghost predicate IdsMatchLedger(s: Stage) {
    forall id: Id :: InFlight(s, id) == if id in s.ledger then 1 else 0
  }

  /** Every message ever offered is in exactly one place. */
  ghost predicate OnePlaceEach(s: Stage) {
    forall ref: Ref :: Places(s, ref) == if ref < |s.original| then 1 else 0
  }

  // ---------------------------------------------------------------------------
  // What the packages and the messages say
  // ---------------------------------------------------------------------------

  /** The message the stage owes downstream for an offered message. */
  function Expected(cfg: Config, m: Message): Message {
    if TakenIn(cfg, m) then Completion(Consumed(cfg, m), Handle(cfg, WorkPackage(cfg, m, 0)).pkg) else m
  }

  ghost predicate Owned(cfg: Config, s: Stage, id: Id) {
    id in s.ledger && s.ledger[id] < |s.original| && TakenIn(cfg, s.original[s.ledger[id]])
  }

  /** A package on its way to the worker. */
  ghost predicate Fresh(cfg: Config, s: Stage, pkg: Package) {
    Owned(cfg, s, pkg.id) && pkg == WorkPackage(cfg, s.original[s.ledger[pkg.id]], pkg.id)
  }

  /** A package on its way back from the worker. */
  ghost predicate Done(cfg: Config, s: Stage, pkg: Package) {
    Owned(cfg, s, pkg.id) && pkg == Handle(cfg, WorkPackage(cfg, s.original[s.ledger[pkg.id]], pkg.id)).pkg
  }

  ghost predicate EngineContent(cfg: Config, s: Stage, engine: Engine)
    requires |s.heap| == |s.original|
  {
    && (engine.producer.Sending? && !engine.producer.ev.Completed? ==> Fresh(cfg, s, engine.producer.ev.pkg))
    && (engine.input != [] && !engine.input[0].Completed? ==> Fresh(cfg, s, engine.input[0].pkg))
    && (engine.child.Working? ==> Fresh(cfg, s, engine.child.pkg))
    && (engine.child.Replying? && !engine.child.ev.Completed? ==> Done(cfg, s, engine.child.ev.pkg))
    && (engine.response != [] && !engine.response[0].Completed? ==> Done(cfg, s, engine.response[0].pkg))
    && (engine.parent.Delivering? ==> Done(cfg, s, engine.parent.pkg))
    && (engine.producer.Forwarding? ==> Untouched(cfg, s, engine.producer.ref))
  }

  ghost predicate Untouched(cfg: Config, s: Stage, ref: Ref)
    requires |s.heap| == |s.original|
  {
    ref < |s.original| && !TakenIn(cfg, s.original[ref]) && s.heap[ref] == s.original[ref]
  }

  ghost predicate Finished(cfg: Config, s: Stage, ref: Ref)
    requires |s.heap| == |s.original|
  {
    ref < |s.original| && s.heap[ref] == Expected(cfg, s.original[ref])
  }

  ghost predicate LedgerContent(cfg: Config, s: Stage)
    requires |s.heap| == |s.original|
  {
    forall id | id in s.ledger ::
      Owned(cfg, s, id) && s.heap[s.ledger[id]] == Consumed(cfg, s.original[s.ledger[id]])
  }

  ghost predicate EnginesContent(cfg: Config, s: Stage)
    requires |s.heap| == |s.original|
  {
    forall e | 0 <= e < |s.engines| :: EngineContent(cfg, s, s.engines[e])
  }

  ghost predicate AllDone(cfg: Config, s: Stage, pkgs: seq<Package>) {
    forall pkg | pkg in pkgs :: Done(cfg, s, pkg)
  }

  ghost predicate AllUntouched(cfg: Config, s: Stage, refs: seq<Ref>)
    requires |s.heap| == |s.original|
  {
    forall ref | ref in refs :: Untouched(cfg, s, ref)
  }

  ghost predicate AllFinished(cfg: Config, s: Stage, refs: seq<Ref>)
    requires |s.heap| == |s.original|
  {
    forall ref | ref in refs :: Finished(cfg, s, ref)
  }

  ghost predicate NodesContent(cfg: Config, s: Stage)
    requires |s.heap| == |s.original|
  {
    && AllDone(cfg, s, s.reconstruct)
    && AllUntouched(cfg, s, s.passThru)
    && AllFinished(cfg, s, s.merge)
    && AllFinished(cfg, s, s.emitted)
  }

  ghost predicate Content(cfg: Config, s: Stage) {
    && |s.heap| == |s.original|
    && LedgerContent(cfg, s)
    && EnginesContent(cfg, s)
    && NodesContent(cfg, s)
  }

  ghost predicate Inv(cfg: Config, s: Stage) {
    && AllOk(s.engines)
    && IdsMatchLedger(s)
    && OnePlaceEach(s)
    && Content(cfg, s)
  }
}
