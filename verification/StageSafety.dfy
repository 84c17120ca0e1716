// Safety of the multiprocessing stage over every interleaving of its engines.

module StageSafety {
  import opened ControlMessages
  import opened StageModel
  import opened StageInvariant

  // ---------------------------------------------------------------------------
  // Every step keeps the invariant
  // ---------------------------------------------------------------------------

  lemma EnginesKept(cfg: Config, s: Stage, e: nat, action: Action)
    requires AllOk(s.engines) && EngineEnabled(cfg, s, e, action)
    ensures AllOk(s.engines[e := EngineAfter(cfg, s, e, action)])
  {
    var engines' := s.engines[e := EngineAfter(cfg, s, e, action)];
    forall i | 0 <= i < |engines'| ensures EngineOk(engines'[i]) {
      if i == e {
        EngineOkKept(cfg, s, e, action);
      } else {
        assert EngineOk(s.engines[i]);
      }
    }
  }

  lemma Extended(xs: seq<nat>, x: nat, ys: seq<nat>, y: nat)
    requires ys == xs + [x] || ys == [x] + xs
    ensures multiset(ys)[y] == multiset(xs)[y] + (if y == x then 1 else 0)
  {
  }

  /** What a step adds to the count of an id on the engine's line, and what it takes off. */
  function Gain(cfg: Config, action: Action, id: Id): nat {
    if action.Offer? && TakenIn(cfg, action.msg) && action.id == id then 1 else 0
  }

  function Loss(s: Stage, e: nat, action: Action, id: Id): nat
    requires e < |s.engines| && (action.Deliver? ==> s.engines[e].parent.Delivering?)
  {
    if action.Deliver? && s.engines[e].parent.pkg.id == id then 1 else 0
  }

  lemma LineBalance(cfg: Config, s: Stage, e: nat, action: Action, id: Id)
    requires EngineEnabled(cfg, s, e, action) && QueuesBounded(s.engines[e])
    ensures LineIds(s.engines[e])[id] + Gain(cfg, action, id)
         == LineIds(EngineAfter(cfg, s, e, action))[id] + Loss(s, e, action, id)
  {
    var before, after := MovedLine(cfg, s, e, action);
    if action.Offer? && TakenIn(cfg, action.msg) {
      Extended(before, action.id, after, id);
    } else if action.Deliver? {
      Extended(after, s.engines[e].parent.pkg.id, before, id);
    }
  }

  lemma MovedLine(cfg: Config, s: Stage, e: nat, action: Action) returns (before: seq<Id>, after: seq<Id>)
    requires EngineEnabled(cfg, s, e, action) && QueuesBounded(s.engines[e])
    ensures LineIds(s.engines[e]) == multiset(before) && LineIds(EngineAfter(cfg, s, e, action)) == multiset(after)
    ensures if action.Offer? && TakenIn(cfg, action.msg) then after == before + [action.id]
            else if action.Deliver? then before == [s.engines[e].parent.pkg.id] + after
            else after == before
  {
    before, after := Line(s.engines[e]), Line(EngineAfter(cfg, s, e, action));
    LineMoves(cfg, s, e, action);
  }

  lemma Handed(before: seq<Package>, after: seq<Package>, more: seq<Package>, id: Id)
    requires after == before + more && |more| <= 1
    ensures multiset(PackageIds(after))[id]
         == multiset(PackageIds(before))[id] + if more != [] && more[0].id == id then 1 else 0
  {
    if more == [] {
      assert after == before;
    } else {
      assert PackageIds(after) == PackageIds(before) + [more[0].id];
    }
  }

  /** An engine's own step: what its line gains enters the ledger, what it loses goes to reconstruct. */
  lemma InFlightKeptByEngine(cfg: Config, s: Stage, e: nat, action: Action, id: Id)
    requires EngineEnabled(cfg, s, e, action) && QueuesBounded(s.engines[e])
    ensures InFlight(EngineStep(cfg, s, e, action), id) == InFlight(s, id) + Gain(cfg, action, id)
  {
    var engine', reconstruct', more := EngineStepParts(cfg, s, e, action);
    LineBalance(cfg, s, e, action, id);
    HeldUpdate(LineIds, s.engines, e, engine', id);
    Handed(s.reconstruct, reconstruct', more, id);
  }

  lemma EngineStepParts(cfg: Config, s: Stage, e: nat, action: Action)
      returns (engine': Engine, reconstruct': seq<Package>, more: seq<Package>)
    requires EngineEnabled(cfg, s, e, action)
    ensures engine' == EngineAfter(cfg, s, e, action)
    ensures reconstruct' == s.reconstruct + more
    ensures more == if action.Deliver? then [s.engines[e].parent.pkg] else []
    ensures var s' := EngineStep(cfg, s, e, action);
            s'.engines == s.engines[e := engine'] && s'.reconstruct == reconstruct'
  {
    engine' := EngineAfter(cfg, s, e, action);
    more := if action.Deliver? then [s.engines[e].parent.pkg] else [];
    reconstruct' := s.reconstruct + more;
  }

  lemma InFlightKeptByReconstruct(cfg: Config, s: Stage, id: Id)
    requires Enabled(cfg, s, Reconstruct)
    ensures InFlight(s, id) == InFlight(Apply(cfg, s, Reconstruct), id) + if id == s.reconstruct[0].id then 1 else 0
  {
    var rest := s.reconstruct[1..];
    assert PackageIds(s.reconstruct) == [s.reconstruct[0].id] + PackageIds(rest);
    Extended(PackageIds(rest), s.reconstruct[0].id, PackageIds(s.reconstruct), id);
  }

  /** The id is in flight exactly if it is in the ledger. */
  ghost predicate IdMatches(s: Stage, id: Id) {
    InFlight(s, id) == if id in s.ledger then 1 else 0
  }

  lemma IdMatchesAfterEngine(cfg: Config, s: Stage, e: nat, action: Action, id: Id)
    requires EngineEnabled(cfg, s, e, action) && QueuesBounded(s.engines[e]) && IdMatches(s, id)
    ensures IdMatches(EngineStep(cfg, s, e, action), id)
  {
    InFlightKeptByEngine(cfg, s, e, action, id);
  }

  lemma IdMatchesAfterReconstruct(cfg: Config, s: Stage, id: Id)
    requires Enabled(cfg, s, Reconstruct) && IdMatches(s, id)
    ensures IdMatches(Apply(cfg, s, Reconstruct), id)
  {
    InFlightKeptByReconstruct(cfg, s, id);
  }

  lemma IdMatchesAfter(cfg: Config, s: Stage, step: Step, id: Id)
    requires AllQueuesBounded(s.engines) && Enabled(cfg, s, step) && IdMatches(s, id)
    ensures IdMatches(Apply(cfg, s, step), id)
  {
    match step
    case At(e, action) => IdMatchesAfterEngine(cfg, s, e, action, id);
    case Reconstruct => IdMatchesAfterReconstruct(cfg, s, id);
    case _ =>
  }

  lemma InFlightKept(cfg: Config, s: Stage, step: Step)
    requires AllQueuesBounded(s.engines) && IdsMatchLedger(s) && Enabled(cfg, s, step)
    ensures IdsMatchLedger(Apply(cfg, s, step))
  {
    var s' := Apply(cfg, s, step);
    forall id: Id ensures InFlight(s', id) == if id in s'.ledger then 1 else 0 {
      assert IdMatches(s, id);
      IdMatchesAfter(cfg, s, step, id);
    }
  }

  lemma PlacesKeptByEngine(cfg: Config, s: Stage, e: nat, action: Action, ref: Ref)
    requires EngineEnabled(cfg, s, e, action) && |s.heap| == |s.original|
    ensures Places(EngineStep(cfg, s, e, action), ref)
         == Places(s, ref) + if action.Offer? && ref == |s.original| then 1 else 0
  {
    HeldUpdate(ForwardRefs, s.engines, e, EngineAfter(cfg, s, e, action), ref);
    if action.Offer? && TakenIn(cfg, action.msg) {
      LedgerCountInsert(s.ledger, action.id, |s.heap|, ref);
    } else if action.PutPassThru? {
      var s' := EngineStep(cfg, s, e, action);
      Extended(s.passThru, s.engines[e].producer.ref, s'.passThru, ref);
    }
  }

  lemma PlacesKept(cfg: Config, s: Stage, step: Step)
    requires |s.heap| == |s.original| && OnePlaceEach(s) && Enabled(cfg, s, step)
    ensures OnePlaceEach(Apply(cfg, s, step))
  {
    var s' := Apply(cfg, s, step);
    forall ref: Ref ensures Places(s', ref) == if ref < |s'.original| then 1 else 0 {
      assert Places(s, ref) == if ref < |s.original| then 1 else 0;
      PlaceKept(cfg, s, step, ref);
    }
  }

  lemma PlaceKept(cfg: Config, s: Stage, step: Step, ref: Ref)
    requires |s.heap| == |s.original| && Enabled(cfg, s, step)
    requires Places(s, ref) == if ref < |s.original| then 1 else 0
    ensures var s' := Apply(cfg, s, step); Places(s', ref) == if ref < |s'.original| then 1 else 0
  {
    match step
    case At(e, action) => PlacesKeptByEngine(cfg, s, e, action, ref);
    case Reconstruct => PlacesKeptByReconstruct(cfg, s, ref);
    case PassThru => PlacesKeptByPassThru(cfg, s, ref);
    case Merge => PlacesKeptByMerge(cfg, s, ref);
  }

  lemma PlacesKeptByReconstruct(cfg: Config, s: Stage, ref: Ref)
    requires Enabled(cfg, s, Reconstruct)
    ensures Places(Apply(cfg, s, Reconstruct), ref) == Places(s, ref)
  {
    var id := s.reconstruct[0].id;
    LedgerCountRemove(s.ledger, id, ref);
    Extended(s.merge, s.ledger[id], s.merge + [s.ledger[id]], ref);
  }

  lemma PlacesKeptByPassThru(cfg: Config, s: Stage, ref: Ref)
    requires Enabled(cfg, s, PassThru)
    ensures Places(Apply(cfg, s, PassThru), ref) == Places(s, ref)
  {
    Extended(s.passThru[1..], s.passThru[0], s.passThru, ref);
    Extended(s.merge, s.passThru[0], s.merge + [s.passThru[0]], ref);
  }

  lemma PlacesKeptByMerge(cfg: Config, s: Stage, ref: Ref)
    requires Enabled(cfg, s, Merge)
    ensures Places(Apply(cfg, s, Merge), ref) == Places(s, ref)
  {
    Extended(s.merge[1..], s.merge[0], s.merge, ref);
    Extended(s.emitted, s.merge[0], s.emitted + [s.merge[0]], ref);
  }

  // ---------------------------------------------------------------------------
  // Every step keeps what the packages and the messages say
  // ---------------------------------------------------------------------------

  /** The package's message is the same in both states. */
  ghost predicate SameOwner(s: Stage, s': Stage, id: Id) {
    id in s.ledger ==> id in s'.ledger && s'.ledger[id] == s.ledger[id]
  }

  ghost predicate Grows(s: Stage, s': Stage) {
    && |s.heap| == |s.original| && |s'.heap| == |s'.original|
    && |s.original| <= |s'.original| && s.original == s'.original[..|s.original|]
  }

  lemma PackageCarried(cfg: Config, s: Stage, s': Stage, pkg: Package)
    requires Grows(s, s') && SameOwner(s, s', pkg.id)
    ensures Fresh(cfg, s, pkg) ==> Fresh(cfg, s', pkg)
    ensures Done(cfg, s, pkg) ==> Done(cfg, s', pkg)
  {
    if Owned(cfg, s, pkg.id) {
      assert s'.original[s.ledger[pkg.id]] == s.original[s.ledger[pkg.id]];
    }
  }

  /** Nothing an engine holds is lost to it between the two states. */
  ghost predicate Carries(s: Stage, s': Stage, engine: Engine)
    requires Grows(s, s')
  {
    && (forall id | id in Line(engine) :: SameOwner(s, s', id))
    && (engine.producer.Forwarding? && engine.producer.ref < |s.heap| ==>
          s'.heap[engine.producer.ref] == s.heap[engine.producer.ref])
  }

  lemma OnLine(engine: Engine)
    requires QueuesBounded(engine)
    ensures engine.producer.Sending? && !engine.producer.ev.Completed? ==> engine.producer.ev.pkg.id in Line(engine)
    ensures engine.input != [] && !engine.input[0].Completed? ==> engine.input[0].pkg.id in Line(engine)
    ensures engine.child.Working? ==> engine.child.pkg.id in Line(engine)
    ensures engine.child.Replying? && !engine.child.ev.Completed? ==> engine.child.ev.pkg.id in Line(engine)
    ensures engine.response != [] && !engine.response[0].Completed? ==> engine.response[0].pkg.id in Line(engine)
    ensures engine.parent.Delivering? ==> engine.parent.pkg.id in Line(engine)
  {
    Among(ParentIds(engine.parent), QueueIds(engine.response), ChildIds(engine.child),
          QueueIds(engine.input), ProducerIds(engine.producer));
    if engine.input != [] {
      Singleton(engine.input);
    }
    if engine.response != [] {
      Singleton(engine.response);
    }
  }

  lemma Among(a: seq<Id>, b: seq<Id>, c: seq<Id>, d: seq<Id>, e: seq<Id>)
    ensures forall id | id in a || id in b || id in c || id in d || id in e :: id in Joined(a, b, c, d, e)
  {
  }

  lemma EngineContentCarried(cfg: Config, s: Stage, s': Stage, engine: Engine)
    requires Grows(s, s') && Carries(s, s', engine) && QueuesBounded(engine)
    requires EngineContent(cfg, s, engine)
    ensures EngineContent(cfg, s', engine)
  {
    OnLine(engine);
    if engine.producer.Sending? && !engine.producer.ev.Completed? {
      PackageCarried(cfg, s, s', engine.producer.ev.pkg);
    }
    if engine.input != [] && !engine.input[0].Completed? {
      PackageCarried(cfg, s, s', engine.input[0].pkg);
    }
    if engine.child.Working? {
      PackageCarried(cfg, s, s', engine.child.pkg);
    }
    if engine.child.Replying? && !engine.child.ev.Completed? {
      PackageCarried(cfg, s, s', engine.child.ev.pkg);
    }
    if engine.response != [] && !engine.response[0].Completed? {
      PackageCarried(cfg, s, s', engine.response[0].pkg);
    }
    if engine.parent.Delivering? {
      PackageCarried(cfg, s, s', engine.parent.pkg);
    }
  }

  lemma EngineContentAfterProducer(cfg: Config, s: Stage, e: nat, action: Action)
    requires EngineEnabled(cfg, s, e, action)
    requires action.UpstreamDone? || action.PutPassThru? || action.PutInput?
    requires |s.heap| == |s.original| && EngineContent(cfg, s, s.engines[e]) && EngineOk(s.engines[e])
    ensures EngineContent(cfg, s, EngineAfter(cfg, s, e, action))
  {
  }

  lemma EngineContentAfterChild(cfg: Config, s: Stage, e: nat, action: Action)
    requires EngineEnabled(cfg, s, e, action) && (action.TakeInput? || action.Work? || action.PutResponse?)
    requires |s.heap| == |s.original| && EngineContent(cfg, s, s.engines[e]) && EngineOk(s.engines[e])
    ensures EngineContent(cfg, s, EngineAfter(cfg, s, e, action))
  {
    if action.TakeInput? {
      Singleton(s.engines[e].input);
    }
  }

  lemma EngineContentAfterParent(cfg: Config, s: Stage, e: nat, action: Action)
    requires EngineEnabled(cfg, s, e, action) && (action.TakeResponse? || action.Deliver? || action.SubCompleted?)
    requires |s.heap| == |s.original| && EngineContent(cfg, s, s.engines[e]) && EngineOk(s.engines[e])
    ensures EngineContent(cfg, s, EngineAfter(cfg, s, e, action))
  {
    if action.TakeResponse? {
      Singleton(s.engines[e].response);
    }
  }

  lemma EngineContentAfter(cfg: Config, s: Stage, e: nat, action: Action)
    requires EngineEnabled(cfg, s, e, action) && !action.Offer?
    requires |s.heap| == |s.original| && EngineContent(cfg, s, s.engines[e]) && EngineOk(s.engines[e])
    ensures EngineContent(cfg, s, EngineAfter(cfg, s, e, action))
  {
    match action
    case UpstreamDone => EngineContentAfterProducer(cfg, s, e, action);
    case PutPassThru => EngineContentAfterProducer(cfg, s, e, action);
    case PutInput => EngineContentAfterProducer(cfg, s, e, action);
    case TakeInput => EngineContentAfterChild(cfg, s, e, action);
    case Work => EngineContentAfterChild(cfg, s, e, action);
    case PutResponse => EngineContentAfterChild(cfg, s, e, action);
    case _ => EngineContentAfterParent(cfg, s, e, action);
  }

  /** One engine acts, all others only see the shared state change. */
  lemma EnginesContentCarried(cfg: Config, s: Stage, s': Stage, e: nat)
    requires Grows(s, s') && EnginesContent(cfg, s) && AllQueuesBounded(s.engines)
    requires e < |s.engines| == |s'.engines| && s'.engines == s.engines[e := s'.engines[e]]
    requires forall i | 0 <= i < |s.engines| :: Carries(s, s', s.engines[i])
    requires EngineContent(cfg, s', s'.engines[e])
    ensures EnginesContent(cfg, s')
  {
    forall i | 0 <= i < |s'.engines| ensures EngineContent(cfg, s', s'.engines[i]) {
      if i != e {
        assert QueuesBounded(s.engines[i]);
        EngineContentCarried(cfg, s, s', s.engines[i]);
      }
    }
  }

  lemma NewEngineContent(cfg: Config, s: Stage, e: nat, action: Action)
    requires EngineEnabled(cfg, s, e, action) && action.Offer?
    requires |s.heap| == |s.original| && EngineContent(cfg, s, s.engines[e]) && QueuesBounded(s.engines[e])
    ensures EngineContent(cfg, EngineStep(cfg, s, e, action), EngineAfter(cfg, s, e, action))
  {
    var s' := EngineStep(cfg, s, e, action);
    var engine := s.engines[e];
    assert Grows(s, s');
    EngineContentCarried(cfg, s, s', engine);
  }

  lemma NodesContentCarried(cfg: Config, s: Stage, s': Stage)
    requires Grows(s, s') && NodesContent(cfg, s)
    requires s'.heap[..|s.heap|] == s.heap
    requires forall id | id in s.ledger :: SameOwner(s, s', id)
    requires s'.reconstruct == s.reconstruct && s'.passThru == s.passThru
    requires s'.merge == s.merge && s'.emitted == s.emitted
    ensures NodesContent(cfg, s')
  {
    forall pkg | pkg in s'.reconstruct ensures Done(cfg, s', pkg) {
      PackageCarried(cfg, s, s', pkg);
    }
    forall ref: Ref | ref < |s.original|
      ensures s'.heap[ref] == s.heap[ref] && s'.original[ref] == s.original[ref]
    {
      assert s'.heap[ref] == s'.heap[..|s.heap|][ref];
    }
  }

  lemma EnginesContentByOffer(cfg: Config, s: Stage, e: nat, action: Action)
    requires |s.heap| == |s.original| && EnginesContent(cfg, s) && AllQueuesBounded(s.engines)
    requires EngineEnabled(cfg, s, e, action) && action.Offer?
    ensures EnginesContent(cfg, EngineStep(cfg, s, e, action))
  {
    var s' := EngineStep(cfg, s, e, action);
    assert EngineContent(cfg, s, s.engines[e]) && QueuesBounded(s.engines[e]);
    NewEngineContent(cfg, s, e, action);
    assert Grows(s, s');
    forall i | 0 <= i < |s.engines| ensures Carries(s, s', s.engines[i]) {
    }
    EnginesContentCarried(cfg, s, s', e);
  }

  lemma LedgerContentByOffer(cfg: Config, s: Stage, e: nat, action: Action)
    requires |s.heap| == |s.original| && LedgerContent(cfg, s)
    requires EngineEnabled(cfg, s, e, action) && action.Offer?
    ensures LedgerContent(cfg, EngineStep(cfg, s, e, action))
  {
    var s' := EngineStep(cfg, s, e, action);
    forall id | id in s'.ledger
      ensures Owned(cfg, s', id) && s'.heap[s'.ledger[id]] == Consumed(cfg, s'.original[s'.ledger[id]])
    {
      if id in s.ledger {
        assert Owned(cfg, s, id);
      }
    }
  }

  /** Taking a message in, or setting it on the pass-through path. */
  lemma ContentKeptByOffer(cfg: Config, s: Stage, e: nat, action: Action)
    requires Content(cfg, s) && AllQueuesBounded(s.engines)
    requires EngineEnabled(cfg, s, e, action) && action.Offer?
    ensures Content(cfg, EngineStep(cfg, s, e, action))
  {
    EnginesContentByOffer(cfg, s, e, action);
    LedgerContentByOffer(cfg, s, e, action);
    NodesContentCarried(cfg, s, EngineStep(cfg, s, e, action));
  }

  lemma NodesContentAfter(cfg: Config, s: Stage, e: nat, action: Action)
    requires |s.heap| == |s.original| && NodesContent(cfg, s)
    requires EngineEnabled(cfg, s, e, action) && !action.Offer?
    requires EngineContent(cfg, s, s.engines[e])
    ensures NodesContent(cfg, EngineStep(cfg, s, e, action))
  {
  }

  lemma EnginesContentByThread(cfg: Config, s: Stage, e: nat, action: Action)
    requires |s.heap| == |s.original| && EnginesContent(cfg, s) && AllOk(s.engines)
    requires EngineEnabled(cfg, s, e, action) && !action.Offer?
    ensures EnginesContent(cfg, EngineStep(cfg, s, e, action))
  {
    var s' := EngineStep(cfg, s, e, action);
    ThreadsLeaveMessages(cfg, s, e, action);
    assert EngineContent(cfg, s, s.engines[e]) && EngineOk(s.engines[e]);
    ActorContent(cfg, s, e, action);
    forall i | 0 <= i < |s'.engines| ensures EngineContent(cfg, s', s'.engines[i]) {
      if i != e {
        assert EngineContent(cfg, s, s.engines[i]);
        SameContent(cfg, s, s', s.engines[i]);
      }
    }
  }

  /** A thread of an engine changes that engine and the queues behind it only. */
  lemma ThreadsLeaveMessages(cfg: Config, s: Stage, e: nat, action: Action)
    requires EngineEnabled(cfg, s, e, action) && !action.Offer?
    ensures var s' := EngineStep(cfg, s, e, action);
            && s'.heap == s.heap && s'.original == s.original && s'.ledger == s.ledger
            && s'.engines == s.engines[e := EngineAfter(cfg, s, e, action)]
  {
  }

  lemma ActorContent(cfg: Config, s: Stage, e: nat, action: Action)
    requires EngineEnabled(cfg, s, e, action) && !action.Offer?
    requires |s.heap| == |s.original| && EngineContent(cfg, s, s.engines[e]) && EngineOk(s.engines[e])
    ensures |EngineStep(cfg, s, e, action).heap| == |EngineStep(cfg, s, e, action).original|
    ensures EngineContent(cfg, EngineStep(cfg, s, e, action), EngineAfter(cfg, s, e, action))
  {
    ThreadsLeaveMessages(cfg, s, e, action);
    EngineContentAfter(cfg, s, e, action);
    SameContent(cfg, s, EngineStep(cfg, s, e, action), EngineAfter(cfg, s, e, action));
  }

  lemma SameContent(cfg: Config, s: Stage, s': Stage, engine: Engine)
    requires |s.heap| == |s.original| && EngineContent(cfg, s, engine)
    requires s'.heap == s.heap && s'.original == s.original && s'.ledger == s.ledger
    ensures EngineContent(cfg, s', engine)
  {
  }

  /** The steps of the threads: messages stay as they are. */
  lemma ContentKeptByThread(cfg: Config, s: Stage, e: nat, action: Action)
    requires Content(cfg, s) && AllOk(s.engines)
    requires EngineEnabled(cfg, s, e, action) && !action.Offer?
    ensures Content(cfg, EngineStep(cfg, s, e, action))
  {
    assert EngineContent(cfg, s, s.engines[e]);
    NodesContentAfter(cfg, s, e, action);
    EnginesContentByThread(cfg, s, e, action);
  }

  lemma BoundedFromOk(engines: seq<Engine>)
    requires AllOk(engines)
    ensures AllQueuesBounded(engines)
  {
    forall e | 0 <= e < |engines| ensures QueuesBounded(engines[e]) {
      assert EngineOk(engines[e]);
    }
  }

  // ---------------------------------------------------------------------------
  // The reconstruct node
  // ---------------------------------------------------------------------------

  /** The id of a work package plays no part in what becomes of its message. */
  lemma IdDoesNotMatter(cfg: Config, m: Message, id: Id)
    requires TakenIn(cfg, m)
    ensures Completion(Consumed(cfg, m), Handle(cfg, WorkPackage(cfg, m, id)).pkg) == Expected(cfg, m)
  {
  }

  lemma Occurs(xs: seq<nat>, x: nat)
    requires x in xs
    ensures multiset(xs)[x] >= 1
  {
    assert x in multiset(xs);
  }

  lemma NotOnLine(s: Stage, e: nat)
    requires e < |s.engines| && s.reconstruct != [] && InFlight(s, s.reconstruct[0].id) <= 1
    ensures s.reconstruct[0].id !in Line(s.engines[e])
  {
    var head := s.reconstruct[0].id;
    HeldCovers(LineIds, s.engines, e, head);
    assert PackageIds(s.reconstruct)[0] == head;
    Occurs(PackageIds(s.reconstruct), head);
    if head in Line(s.engines[e]) {
      Occurs(Line(s.engines[e]), head);
    }
  }

  lemma NotBehind(s: Stage, pkg: Package)
    requires s.reconstruct != [] && InFlight(s, s.reconstruct[0].id) <= 1 && pkg in s.reconstruct[1..]
    ensures pkg.id != s.reconstruct[0].id
  {
    var i :| 0 <= i < |s.reconstruct[1..]| && s.reconstruct[1..][i] == pkg;
    OnceAtHead(PackageIds(s.reconstruct), i + 1);
  }

  lemma OnceAtHead(ids: seq<nat>, i: nat)
    requires 0 < i < |ids| && multiset(ids)[ids[0]] <= 1
    ensures ids[i] != ids[0]
  {
    assert ids == [ids[0]] + ids[1..];
    Extended(ids[1..], ids[0], ids, ids[0]);
    if ids[i] == ids[0] {
      assert ids[1..][i - 1] == ids[0];
      Occurs(ids[1..], ids[0]);
    }
  }

  /** The message of a ledger entry is nowhere else. */
  lemma OwnerIsAlone(s: Stage, id: Id)
    requires OnePlaceEach(s) && id in s.ledger
    ensures forall e | 0 <= e < |s.engines| :: s.ledger[id] !in ForwardRefs(s.engines[e])
    ensures forall other | other in s.ledger && other != id :: s.ledger[other] != s.ledger[id]
    ensures s.ledger[id] !in s.passThru && s.ledger[id] !in s.merge && s.ledger[id] !in s.emitted
  {
    var ref := s.ledger[id];
    assert Places(s, ref) <= 1;
    LedgerCountRemove(s.ledger, id, ref);
    forall e | 0 <= e < |s.engines| ensures ref !in ForwardRefs(s.engines[e]) {
      HeldCovers(ForwardRefs, s.engines, e, ref);
    }
    forall other | other in s.ledger && other != id ensures s.ledger[other] != ref {
      LedgerCountRemove(s.ledger - {id}, other, ref);
    }
    assert ref !in multiset(s.passThru) && ref !in multiset(s.merge) && ref !in multiset(s.emitted);
  }

  lemma EngineContentByReconstruct(cfg: Config, s: Stage, engine: Engine)
    requires |s.heap| == |s.original| && EngineContent(cfg, s, engine) && QueuesBounded(engine)
    requires Enabled(cfg, s, Reconstruct)
    requires s.reconstruct[0].id !in Line(engine) && s.ledger[s.reconstruct[0].id] !in ForwardRefs(engine)
    ensures EngineContent(cfg, Apply(cfg, s, Reconstruct), engine)
  {
    var s' := Apply(cfg, s, Reconstruct);
    assert Grows(s, s');
    assert Carries(s, s', engine);
    EngineContentCarried(cfg, s, s', engine);
  }

  lemma EnginesContentByReconstruct(cfg: Config, s: Stage)
    requires |s.heap| == |s.original| && EnginesContent(cfg, s) && AllQueuesBounded(s.engines)
    requires IdsMatchLedger(s) && OnePlaceEach(s) && Enabled(cfg, s, Reconstruct)
    ensures EnginesContent(cfg, Apply(cfg, s, Reconstruct))
  {
    var s' := Apply(cfg, s, Reconstruct);
    assert InFlight(s, s.reconstruct[0].id) <= 1;
    OwnerIsAlone(s, s.reconstruct[0].id);
    forall e | 0 <= e < |s'.engines| ensures EngineContent(cfg, s', s'.engines[e]) {
      NotOnLine(s, e);
      assert EngineContent(cfg, s, s.engines[e]) && QueuesBounded(s.engines[e]);
      EngineContentByReconstruct(cfg, s, s.engines[e]);
    }
  }

  /** The message that leaves the reconstruct node is the one owed for the message offered. */
  lemma HeadIsFinished(cfg: Config, s: Stage)
    requires |s.heap| == |s.original| && LedgerContent(cfg, s) && Enabled(cfg, s, Reconstruct)
    requires Done(cfg, s, s.reconstruct[0])
    ensures Finished(cfg, Apply(cfg, s, Reconstruct), s.ledger[s.reconstruct[0].id])
  {
    var pkg := s.reconstruct[0];
    assert Owned(cfg, s, pkg.id);
    IdDoesNotMatter(cfg, s.original[s.ledger[pkg.id]], pkg.id);
  }

  lemma ReconstructGrows(cfg: Config, s: Stage)
    requires |s.heap| == |s.original| && Enabled(cfg, s, Reconstruct)
    ensures var s' := Apply(cfg, s, Reconstruct);
            Grows(s, s') && s'.ledger == s.ledger - {s.reconstruct[0].id}
  {
  }

  lemma PackageByReconstruct(cfg: Config, s: Stage, pkg: Package)
    requires |s.heap| == |s.original| && Enabled(cfg, s, Reconstruct)
    requires pkg.id != s.reconstruct[0].id && Done(cfg, s, pkg)
    ensures Done(cfg, Apply(cfg, s, Reconstruct), pkg)
  {
    ReconstructGrows(cfg, s);
    PackageCarried(cfg, s, Apply(cfg, s, Reconstruct), pkg);
  }

  lemma PackagesByReconstruct(cfg: Config, s: Stage)
    requires |s.heap| == |s.original| && AllDone(cfg, s, s.reconstruct)
    requires IdsMatchLedger(s) && Enabled(cfg, s, Reconstruct)
    ensures AllDone(cfg, Apply(cfg, s, Reconstruct), s.reconstruct[1..])
  {
    assert InFlight(s, s.reconstruct[0].id) <= 1;
    forall pkg | pkg in s.reconstruct[1..] ensures Done(cfg, Apply(cfg, s, Reconstruct), pkg) {
      assert pkg in s.reconstruct;
      NotBehind(s, pkg);
      PackageByReconstruct(cfg, s, pkg);
    }
  }

  lemma UntouchedByReconstruct(cfg: Config, s: Stage, refs: seq<Ref>)
    requires |s.heap| == |s.original| && Enabled(cfg, s, Reconstruct)
    requires AllUntouched(cfg, s, refs) && s.ledger[s.reconstruct[0].id] !in refs
    ensures AllUntouched(cfg, Apply(cfg, s, Reconstruct), refs)
  {
  }

  lemma FinishedByReconstruct(cfg: Config, s: Stage, refs: seq<Ref>)
    requires |s.heap| == |s.original| && Enabled(cfg, s, Reconstruct)
    requires AllFinished(cfg, s, refs) && s.ledger[s.reconstruct[0].id] !in refs
    ensures AllFinished(cfg, Apply(cfg, s, Reconstruct), refs)
  {
  }

  lemma FinishedMore(cfg: Config, s: Stage, refs: seq<Ref>, ref: Ref)
    requires |s.heap| == |s.original| && AllFinished(cfg, s, refs) && Finished(cfg, s, ref)
    ensures AllFinished(cfg, s, refs + [ref])
  {
  }

  lemma NodesContentByReconstruct(cfg: Config, s: Stage)
    requires |s.heap| == |s.original| && LedgerContent(cfg, s) && NodesContent(cfg, s)
    requires IdsMatchLedger(s) && OnePlaceEach(s) && Enabled(cfg, s, Reconstruct)
    ensures NodesContent(cfg, Apply(cfg, s, Reconstruct))
  {
    var s' := Apply(cfg, s, Reconstruct);
    var ref := s.ledger[s.reconstruct[0].id];
    PackagesByReconstruct(cfg, s);
    OwnerIsAlone(s, s.reconstruct[0].id);
    UntouchedByReconstruct(cfg, s, s.passThru);
    FinishedByReconstruct(cfg, s, s.merge);
    FinishedByReconstruct(cfg, s, s.emitted);
    assert Done(cfg, s, s.reconstruct[0]);
    HeadIsFinished(cfg, s);
    FinishedMore(cfg, s', s.merge, ref);
  }

  lemma LedgerContentByReconstruct(cfg: Config, s: Stage)
    requires |s.heap| == |s.original| && LedgerContent(cfg, s)
    requires OnePlaceEach(s) && Enabled(cfg, s, Reconstruct)
    ensures LedgerContent(cfg, Apply(cfg, s, Reconstruct))
  {
    var s' := Apply(cfg, s, Reconstruct);
    OwnerIsAlone(s, s.reconstruct[0].id);
    forall id | id in s'.ledger
      ensures Owned(cfg, s', id) && s'.heap[s'.ledger[id]] == Consumed(cfg, s'.original[s'.ledger[id]])
    {
      assert Owned(cfg, s, id);
    }
  }

  // ---------------------------------------------------------------------------
  // The invariant over whole runs
  // ---------------------------------------------------------------------------

  lemma ContentKept(cfg: Config, s: Stage, step: Step)
    requires Inv(cfg, s) && Enabled(cfg, s, step)
    ensures Content(cfg, Apply(cfg, s, step))
  {
    BoundedFromOk(s.engines);
    match step
    case At(e, action) =>
      if action.Offer? {
        ContentKeptByOffer(cfg, s, e, action);
      } else {
        ContentKeptByThread(cfg, s, e, action);
      }
    case Reconstruct =>
      EnginesContentByReconstruct(cfg, s);
      NodesContentByReconstruct(cfg, s);
      LedgerContentByReconstruct(cfg, s);
    case _ =>
      ContentKeptByNodes(cfg, s, step);
  }

  lemma ContentKeptByNodes(cfg: Config, s: Stage, step: Step)
    requires Content(cfg, s) && Enabled(cfg, s, step) && (step.PassThru? || step.Merge?)
    ensures Content(cfg, Apply(cfg, s, step))
  {
    var s' := Apply(cfg, s, step);
    forall e | 0 <= e < |s'.engines| ensures EngineContent(cfg, s', s'.engines[e]) {
      SameContent(cfg, s, s', s.engines[e]);
    }
    assert step.PassThru? ==> Untouched(cfg, s, s.passThru[0]);
    assert step.Merge? ==> Finished(cfg, s, s.merge[0]);
    forall ref | ref in s'.passThru ensures Untouched(cfg, s', ref) {
      assert ref in s.passThru;
    }
    forall ref | ref in s'.merge ensures Finished(cfg, s', ref) {
      assert ref in s.merge || ref == s.passThru[0];
    }
  }

  lemma InvKept(cfg: Config, s: Stage, step: Step)
    requires Inv(cfg, s) && Enabled(cfg, s, step)
    ensures Inv(cfg, Apply(cfg, s, step))
  {
    BoundedFromOk(s.engines);
    InFlightKept(cfg, s, step);
    PlacesKept(cfg, s, step);
    ContentKept(cfg, s, step);
    if step.At? {
      EnginesKept(cfg, s, step.e, step.action);
    }
  }

  lemma NothingInFlightInitially(n: nat)
    ensures IdsMatchLedger(Init(n)) && OnePlaceEach(Init(n))
  {
    var s := Init(n);
    forall id: Id ensures InFlight(s, id) == 0 {
      HeldByNone(LineIds, s.engines, id);
    }
    forall ref: Ref ensures Places(s, ref) == 0 {
      HeldByNone(ForwardRefs, s.engines, ref);
    }
  }

  lemma EnginesOkInitially(cfg: Config, n: nat)
    ensures AllOk(Init(n).engines)
  {
    assert EngineOk(newEngine);
    forall e | 0 <= e < n ensures Init(n).engines[e] == newEngine {
    }
  }

  lemma ContentInitially(cfg: Config, n: nat)
    ensures Content(cfg, Init(n))
  {
    var s := Init(n);
    assert EngineContent(cfg, s, newEngine);
    forall e | 0 <= e < n ensures s.engines[e] == newEngine {
    }
  }

  lemma InvInitially(cfg: Config, n: nat)
    ensures Inv(cfg, Init(n))
  {
    NothingInFlightInitially(n);
    EnginesOkInitially(cfg, n);
    ContentInitially(cfg, n);
  }

  /** Every state of every interleaving satisfies the invariant. */
  lemma {:induction false} InvAlways(cfg: Config, s: Stage, steps: seq<Step>, t: Stage)
    requires Inv(cfg, s) && Runs(cfg, s, steps, t)
    ensures Inv(cfg, t)
    decreases |steps|
  {
    if steps != [] {
      InvKept(cfg, s, steps[0]);
      InvAlways(cfg, Apply(cfg, s, steps[0]), steps[1..], t);
    }
  }
}
