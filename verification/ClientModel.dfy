// The client's jobs, from being added to being fetched, together with the broker's side of it.

module ClientModel {
  import opened Wrappers

  datatype Phase = Pending | SubmittedAsync | Submitted | Processing | Completed | Failed | Cancelled

  datatype Task =
    | Extract(tables: bool, charts: bool, infographics: bool, audio: bool)
    | TableExtraction | ChartExtraction | InfographicExtraction | AudioExtraction
    | OtherTask(name: string)

  /** What adding a task adds: an extraction brings the tasks that follow from its options. */
  function WithCompanions(task: Task): seq<Task> {
    [task] +
    match task
    case Extract(tables, charts, infographics, audio) =>
      (if tables then [TableExtraction] else []) + (if charts then [ChartExtraction] else [])
      + (if infographics then [InfographicExtraction] else []) + (if audio then [AudioExtraction] else [])
    case _ => []
  }

  /** A job specification. Its payload is the content until that is released. Task lists are objects that
      specifications can share, so that a specification only refers to one. */
  datatype Spec = Spec(content: string, released: bool, list: nat, jobId: Option<string>) {
    function Payload(): Option<string> {
      if released then None else Some(content)
    }
  }

  /** A job refers to its specification, which the caller may use for several jobs. */
  datatype Job = Job(spec: nat, phase: Phase)

  /** How one call of the message client ends: with an answer, which may carry an id, or with an exception. The
      client retries inside, so that the job can have arrived at the broker any number of times, and an answer
      without an id, which the client makes up when it gives up, does not say that it has not arrived. */
  datatype Call = Answered(id: Option<string>, arrivals: nat) | Broken(arrivals: nat)

  /** An id comes from the broker only. */
  type Reply = call: Call | call.Answered? && call.id.Some? ==> call.arrivals > 0 witness Broken(0)

  datatype Attempt = Attempt(index: nat, spec: nat, payload: Option<string>, tasks: seq<Task>, reply: Reply)

  /** An asynchronous submission waits for a worker until it is done. */
  datatype Future = Queued(index: nat) | Done(index: nat)

  /** log holds the submissions attempted, in order: what has been handed to the message client, and, as a call broken
      without an arrival, a job that cannot be written as JSON and fails before it. */
  datatype Client = Client(next: nat, jobs: map<nat, Job>, specs: seq<Spec>, lists: seq<seq<Task>>,
                           futures: seq<Future>, log: seq<Attempt>)

  const EMPTY := Client(0, map[], [], [], [], [])

  datatype Action =
    | MakeList(tasks: seq<Task>)
    | MakeSpec(content: string, list: Option<nat>)
    | AddJob(spec: nat)
    | AddTask(index: nat, task: Task)
    | Submit(index: nat, reply: Reply)
    | SubmitAsync(index: nat)
    | Work(future: nat, reply: Reply)
    | Settle(future: nat)
    | Fetch(index: nat, ready: bool)

  // ---------------------------------------------------------------------------
  // Phases
  // ---------------------------------------------------------------------------

  function Rank(phase: Phase): nat {
    match phase
    case Pending => 1 case SubmittedAsync => 2 case Submitted => 3 case Processing => 4
    case Completed => 5 case Failed => 6 case Cancelled => 7
  }

  predicate Terminal(phase: Phase) {
    phase.Completed? || phase.Failed? || phase.Cancelled?
  }

  /** A phase can be left only if it is not terminal, and only forward. */
  predicate CanBecome(from: Phase, to: Phase) {
    !Terminal(from) && Rank(from) <= Rank(to)
  }

  predicate InPhase(c: Client, index: nat, phases: set<Phase>) {
    index in c.jobs && c.jobs[index].phase in phases
  }

  // ---------------------------------------------------------------------------
  // Steps
  // ---------------------------------------------------------------------------

  /** A specification keeps the list it is given, unless that is empty: then it gets one of its own. */
  function AfterMakeSpec(c: Client, content: string, list: Option<nat>): Client {
    if list.Some? && list.value < |c.lists| && c.lists[list.value] != []
    then c.(specs := c.specs + [Spec(content, false, list.value, None)])
    else c.(specs := c.specs + [Spec(content, false, |c.lists|, None)], lists := c.lists + [[]])
  }

  function AfterAddJob(c: Client, spec: nat): Client {
    if spec < |c.specs| then c.(next := c.next + 1, jobs := c.jobs[c.next := Job(spec, Pending)]) else c
  }

  /** Tasks are added to pending jobs only. */
  function AfterAddTask(c: Client, index: nat, task: Task): Client {
    if InPhase(c, index, {Pending}) && HasSpec(c, index)
    then c.(lists := c.lists[ListOf(c, index) := c.lists[ListOf(c, index)] + WithCompanions(task)])
    else c
  }

  predicate HasSpec(c: Client, index: nat) {
    index in c.jobs && c.jobs[index].spec < |c.specs| && c.specs[c.jobs[index].spec].list < |c.lists|
  }

  function SpecOf(c: Client, index: nat): Spec
    requires HasSpec(c, index)
  {
    c.specs[c.jobs[index].spec]
  }

  function ListOf(c: Client, index: nat): nat
    requires HasSpec(c, index)
  {
    SpecOf(c, index).list
  }

  function TasksOf(c: Client, index: nat): seq<Task>
    requires HasSpec(c, index)
  {
    c.lists[ListOf(c, index)]
  }

  predicate CanSubmit(c: Client, index: nat) {
    InPhase(c, index, {Pending, SubmittedAsync}) && HasSpec(c, index)
  }

  function AttemptOf(c: Client, index: nat, reply: Reply): Attempt
    requires HasSpec(c, index)
  {
    Attempt(index, c.jobs[index].spec, SpecOf(c, index).Payload(), TasksOf(c, index), reply)
  }

  /** Submitting: any answer counts as success; the job's id is what it carries, and the payload is released. */
  function AfterSubmit(c: Client, index: nat, reply: Reply): Client {
    if !CanSubmit(c, index) then c
    else
      var job := c.jobs[index];
      match reply
      case Answered(id, _) =>
        c.(jobs := c.jobs[index := job.(phase := Submitted)],
           specs := c.specs[job.spec := c.specs[job.spec].(jobId := Some(id.GetOr("")), released := true)],
           log := c.log + [AttemptOf(c, index, reply)])
      case Broken(_) =>
        c.(jobs := c.jobs[index := job.(phase := Failed)], log := c.log + [AttemptOf(c, index, reply)])
  }

  function AfterSubmitAsync(c: Client, index: nat): Client {
    if InPhase(c, index, {Pending})
    then c.(jobs := c.jobs[index := c.jobs[index].(phase := SubmittedAsync)], futures := c.futures + [Queued(index)])
    else c
  }

  /** A worker takes a queued submission. */
  function AfterWork(c: Client, future: nat, reply: Reply): Client {
    if future < |c.futures| && c.futures[future].Queued? then
      var index := c.futures[future].index;
      AfterSubmit(c, index, reply).(futures := c.futures[future := Done(index)])
    else c
  }

  /** A done submission is waited for: the job is marked submitted, where its phase lets it be. */
  function AfterSettle(c: Client, future: nat): Client {
    if future < |c.futures| && c.futures[future].Done? && c.futures[future].index in c.jobs
       && CanBecome(c.jobs[c.futures[future].index].phase, Submitted)
    then var index := c.futures[future].index;
         c.(jobs := c.jobs[index := c.jobs[index].(phase := Submitted)])
    else c
  }

  /** A fetched job is forgotten, whether its result can be decoded or not. */
  function AfterFetch(c: Client, index: nat, ready: bool): Client {
    if InPhase(c, index, {Submitted, SubmittedAsync}) && ready then c.(jobs := c.jobs - {index}) else c
  }

  function Apply(c: Client, action: Action): Client {
    match action
    case MakeList(tasks) => c.(lists := c.lists + [tasks])
    case MakeSpec(content, list) => AfterMakeSpec(c, content, list)
    case AddJob(spec) => AfterAddJob(c, spec)
    case AddTask(index, task) => AfterAddTask(c, index, task)
    case Submit(index, reply) => AfterSubmit(c, index, reply)
    case SubmitAsync(index) => AfterSubmitAsync(c, index)
    case Work(future, reply) => AfterWork(c, future, reply)
    case Settle(future) => AfterSettle(c, future)
    case Fetch(index, ready) => AfterFetch(c, index, ready)
  }

  function Run(c: Client, actions: seq<Action>): Client
    decreases |actions|
  {
    if actions == [] then c else Run(Apply(c, actions[0]), actions[1..])
  }
}
