// The multiprocessing stage as a step system: N engines sharing one ledger, every thread action a step.

module StageModel {
  import opened Wrappers
  import opened ControlMessages

  /** A control message object; the index of its current value in the heap of the stage. */
  type Ref = nat

  /** The uuid4 drawn for a work package. */
  type Id = nat

  /** What a Python function may hand back in place of a data frame. */
  datatype Value = Table(frame: Frame) | Nothing | Foreign

  /** What the worker makes of a package. With its result it can hand back trace timestamps; traceError is what
      setting them on the message raises, if one of them is no timestamp. */
  datatype Outcome = Returned(value: Value, traceError: Option<string>) | Raised(reason: string)

  datatype Config = Config(
    task: string,                         // task type the stage consumes
    accepts: Props -> bool,               // the filter on task properties
    edgeBuffer: nat,                      // capacity of the pass-through queue; 0 for no bound
    process: (Value, Props) -> Outcome)   // process_fn, run in the worker pool

  const MAX_QUEUE_SIZE := 1

  datatype Package = Package(id: Id, payload: Value, props: Props, error: Option<string>,
                             traceError: Option<string>)

  datatype Event = OnNext(pkg: Package) | OnError(pkg: Package) | Completed

  /** The upstream thread inside on_next or on_completed, up to its next blocking put. */
  datatype Producer = Idle | Forwarding(ref: Ref) | Sending(ev: Event) | Closed

  /** The child thread, which runs work_package_input_handler. It puts a final completion event of its own
      after the one it passes on. */
  datatype Child = Waiting | Working(pkg: Package) | Replying(ev: Event) | LastReply | Exited

  /** The parent thread, which runs work_package_response_handler. It tells the subscriber twice that the
      stream has completed. */
  datatype Parent = Listening | Delivering(pkg: Package) | Completing(calls: nat) | Ended

  datatype Engine = Engine(
    producer: Producer,
    input: seq<Event>,
    child: Child,
    response: seq<Event>,
    parent: Parent,
    accepted: seq<Id>,      // history: packages taken in, oldest first
    handed: seq<Id>,        // history: packages handed to sub.on_next, oldest first
    completions: nat)       // history: calls of sub.on_completed

  datatype Stage = Stage(
    engines: seq<Engine>,
    ledger: map<Id, Ref>,
    passThru: seq<Ref>,
    reconstruct: seq<Package>,
    merge: seq<Ref>,
    emitted: seq<Ref>,
    heap: seq<Message>,       // current value of every message offered to the stage
    original: seq<Message>)   // history: value of every message when it was offered

  /** The actions of one engine's three threads. */
  datatype Action =
    | Offer(msg: Message, id: Id)   // upstream calls on_next
    | UpstreamDone                  // upstream calls on_completed
    | PutPassThru
    | PutInput
    | TakeInput
    | Work
    | PutResponse
    | TakeResponse
    | Deliver                       // sub.on_next
    | SubCompleted                  // sub.on_completed

  datatype Step = At(e: nat, action: Action) | Reconstruct | PassThru | Merge

  const newEngine := Engine(Idle, [], Waiting, [], Listening, [], [], 0)

  function Init(n: nat): Stage {
    Stage(seq(n, _ => newEngine), map[], [], [], [], [], [], [])
  }

  // ---------------------------------------------------------------------------
  // The node functions, on values
  // ---------------------------------------------------------------------------

  /** on_next takes the message in; otherwise it goes to forward_fn. */
  predicate TakenIn(cfg: Config, m: Message) {
    Matches(m.tasks, cfg.task, cfg.accepts) && !Failed(m)
  }

  /** The message as the ledger keeps it: its first task of the stage's type is gone. */
  function Consumed(cfg: Config, m: Message): Message {
    m.(tasks := WithoutFirst(m.tasks, cfg.task))
  }

  function TaskProps(cfg: Config, m: Message): Props
    requires HasKind(m.tasks, cfg.task)
  {
    m.tasks[FirstOfKind(m.tasks, cfg.task)].props
  }

  function WorkPackage(cfg: Config, m: Message, id: Id): Package
    requires TakenIn(cfg, m)
  {
    Package(id, Table(m.payload), TaskProps(cfg, m), None, None)
  }

  /** The child thread's handling of one work package. */
  function Handle(cfg: Config, pkg: Package): Event {
    match cfg.process(pkg.payload, pkg.props)
    case Returned(v, traceError) => OnNext(pkg.(payload := v, traceError := traceError))
    case Raised(reason) => OnError(pkg.(error := Some(reason)))
  }

  const FOREIGN_PAYLOAD := "Payload must be a pandas DataFrame"

  /** Setting the trace timestamps comes after the payload and can fail. */
  function Stamped(m: Message, pkg: Package): Message {
    if Tagged(m) && pkg.traceError.Some? then SetFailure(m, "Error in cm_func: " + pkg.traceError.value) else m
  }

  /** The reconstruct node under its failure decorator: a failed message is left alone; an error in the
      package, a payload that is no data frame, or a trace timestamp that is none marks the message failed. */
  function Completion(m: Message, pkg: Package): Message {
    if Failed(m) then m
    else if pkg.error.Some? then SetFailure(m, "Error in cm_func: " + pkg.error.value)
    else match pkg.payload
      case Table(frame) => Stamped(m.(payload := frame), pkg)
      case Nothing => Stamped(m, pkg)
      case Foreign => SetFailure(m, "Error in cm_func: " + FOREIGN_PAYLOAD)
  }

  // ---------------------------------------------------------------------------
  // Steps
  // ---------------------------------------------------------------------------

  /** Not an arrival: a step the stage takes on its own. */
  predicate Internal(step: Step) {
    step.At? ==> !step.action.Offer? && !step.action.UpstreamDone?
  }

  predicate EngineEnabled(cfg: Config, s: Stage, e: nat, action: Action) {
    e < |s.engines|
    && var engine := s.engines[e];
    match action
    case Offer(m, id) => engine.producer.Idle? && id !in s.ledger
    case UpstreamDone => engine.producer.Idle?
    case PutPassThru => engine.producer.Forwarding? && (cfg.edgeBuffer == 0 || |s.passThru| < cfg.edgeBuffer)
    case PutInput => engine.producer.Sending? && |engine.input| < MAX_QUEUE_SIZE
    case TakeInput => engine.child.Waiting? && engine.input != []
    case Work => engine.child.Working?
    case PutResponse => (engine.child.Replying? || engine.child.LastReply?) && |engine.response| < MAX_QUEUE_SIZE
    case TakeResponse => engine.parent.Listening? && engine.response != []
    case Deliver => engine.parent.Delivering?
    case SubCompleted => engine.parent.Completing?
  }

  predicate Enabled(cfg: Config, s: Stage, step: Step) {
    match step
    case At(e, action) => EngineEnabled(cfg, s, e, action)
    case Reconstruct =>
      s.reconstruct != [] && s.reconstruct[0].id in s.ledger && s.ledger[s.reconstruct[0].id] < |s.heap|
    case PassThru => s.passThru != []
    case Merge => s.merge != []
  }

  /** What an engine's own action makes of the engine. */
  function EngineAfter(cfg: Config, s: Stage, e: nat, action: Action): Engine
    requires EngineEnabled(cfg, s, e, action)
  {
    var engine := s.engines[e];
    match action
    case Offer(m, id) =>
      if TakenIn(cfg, m) then
        engine.(producer := Sending(OnNext(WorkPackage(cfg, m, id))), accepted := engine.accepted + [id])
      else
        engine.(producer := Forwarding(|s.heap|))
    case UpstreamDone => engine.(producer := Sending(Completed))
    case PutPassThru => engine.(producer := Idle)
    case PutInput =>
      var ev := engine.producer.ev;
      engine.(input := engine.input + [ev], producer := if ev.Completed? then Closed else Idle)
    case TakeInput =>
      var ev := engine.input[0];
      engine.(input := engine.input[1..], child := if ev.OnNext? then Working(ev.pkg) else Replying(ev))
    case Work => engine.(child := Replying(Handle(cfg, engine.child.pkg)))
    case PutResponse =>
      if engine.child.LastReply? then
        engine.(response := engine.response + [Completed], child := Exited)
      else
        var ev := engine.child.ev;
        engine.(response := engine.response + [ev], child := if ev.Completed? then LastReply else Waiting)
    case TakeResponse =>
      var ev := engine.response[0];
      engine.(response := engine.response[1..], parent := if ev.Completed? then Completing(2) else Delivering(ev.pkg))
    case Deliver =>
      engine.(handed := engine.handed + [engine.parent.pkg.id], parent := Listening)
    case SubCompleted =>
      engine.(completions := engine.completions + 1,
              parent := if engine.parent.calls <= 1 then Ended else Completing(engine.parent.calls - 1))
  }

  function EngineStep(cfg: Config, s: Stage, e: nat, action: Action): Stage
    requires EngineEnabled(cfg, s, e, action)
  {
    var s' := s.(engines := s.engines[e := EngineAfter(cfg, s, e, action)]);
    if action.Offer? then
      if TakenIn(cfg, action.msg) then
        s'.(original := s.original + [action.msg], heap := s.heap + [Consumed(cfg, action.msg)],
            ledger := s.ledger[action.id := |s.heap|])
      else
        s'.(original := s.original + [action.msg], heap := s.heap + [action.msg])
    else if action.PutPassThru? then
      s'.(passThru := s.passThru + [s.engines[e].producer.ref])
    else if action.Deliver? then
      s'.(reconstruct := s.reconstruct + [s.engines[e].parent.pkg])
    else
      s'
  }

  function Apply(cfg: Config, s: Stage, step: Step): Stage
    requires Enabled(cfg, s, step)
  {
    match step
    case At(e, action) => EngineStep(cfg, s, e, action)
    case Reconstruct =>
      var pkg := s.reconstruct[0];
      var ref := s.ledger[pkg.id];
      s.(reconstruct := s.reconstruct[1..], ledger := s.ledger - {pkg.id},
         heap := s.heap[ref := Completion(s.heap[ref], pkg)], merge := s.merge + [ref])
    case PassThru => s.(passThru := s.passThru[1..], merge := s.merge + [s.passThru[0]])
    case Merge => s.(merge := s.merge[1..], emitted := s.emitted + [s.merge[0]])
  }

  /** The steps lead from s to t, each enabled when it is taken: one interleaving of all threads. */
  ghost predicate Runs(cfg: Config, s: Stage, steps: seq<Step>, t: Stage)
    decreases |steps|
  {
    if steps == [] then s == t
    else Enabled(cfg, s, steps[0]) && Runs(cfg, Apply(cfg, s, steps[0]), steps[1..], t)
  }
}
