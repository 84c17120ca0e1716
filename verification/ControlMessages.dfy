// The message that flows through the pipeline: its task table, its metadata and its payload, and the
// failure decorator that every stage wraps around its node functions.

module ControlMessages {
  import opened Wrappers

  /** A data frame; its rows are opaque to the stage protocol. */
  type Frame = seq<string>

  type Props = map<string, string>

  datatype Task = Task(kind: string, id: string, props: Props)

  datatype Meta = Flag(value: bool) | Text(text: string)

  const CM_FAILED := "cm_failed"
  const CM_FAILED_REASON := "cm_failed_reason"
  const ADD_TRACE_TAGGING := "config::add_trace_tagging"

  /** The abstract value of a control message. The task table is a dictionary keyed by task id, which
      Python keeps in insertion order: a sequence of tasks with distinct ids. */
  datatype Message = Message(tasks: seq<Task>, metadata: map<string, Meta>, payload: Frame)

  ghost predicate UniqueIds(tasks: seq<Task>) {
    forall i, j | 0 <= i < j < |tasks| :: tasks[i].id != tasks[j].id
  }

  predicate Truthy(value: Meta) {
    match value
    case Flag(b) => b
    case Text(t) => t != ""
  }

  predicate Failed(m: Message) {
    CM_FAILED in m.metadata && Truthy(m.metadata[CM_FAILED])
  }

  /** Trace tagging is switched on for the message. */
  predicate Tagged(m: Message) {
    ADD_TRACE_TAGGING in m.metadata && m.metadata[ADD_TRACE_TAGGING] == Flag(true)
  }

  function SetFailure(m: Message, reason: string): Message {
    m.(metadata := m.metadata[CM_FAILED := Flag(true)][CM_FAILED_REASON := Text(reason)])
  }

  predicate HasKind(tasks: seq<Task>, kind: string) {
    exists i :: 0 <= i < |tasks| && tasks[i].kind == kind
  }

  /** The position of the first task of the given kind, or the length of the table. */
  function FirstOfKind(tasks: seq<Task>, kind: string): (i: nat)
    ensures i <= |tasks|
    ensures forall j | 0 <= j < i :: tasks[j].kind != kind
    ensures i < |tasks| ==> tasks[i].kind == kind
    ensures i < |tasks| <==> HasKind(tasks, kind)
  {
    if tasks == [] then 0
    else if tasks[0].kind == kind then 0
    else 1 + FirstOfKind(tasks[1..], kind)
  }

  function WithoutFirst(tasks: seq<Task>, kind: string): seq<Task> {
    var i := FirstOfKind(tasks, kind);
    if i < |tasks| then tasks[..i] + tasks[i + 1..] else tasks
  }

  /** The task filter in front of a stage: some task of the right kind has acceptable properties. */
  predicate Matches(tasks: seq<Task>, kind: string, accepts: Props -> bool) {
    exists i :: 0 <= i < |tasks| && tasks[i].kind == kind && accepts(tasks[i].props)
  }

  /** An unacceptable task of the kind stands before every acceptable one. */
  ghost predicate Shadowed(tasks: seq<Task>, kind: string, accepts: Props -> bool) {
    exists j :: 0 <= j < |tasks| && tasks[j].kind == kind && !accepts(tasks[j].props)
             && forall i | 0 <= i < |tasks| && tasks[i].kind == kind && accepts(tasks[i].props) :: j < i
  }

  /** Task filter and task removal do not look at the same task: the filter lets a message in when any
      task of the kind has acceptable properties, removal takes the first task of the kind. For a message
      let in, the worker is handed acceptable properties exactly when no unacceptable task shadows them. */
  lemma FilterAgreesWithRemoval(tasks: seq<Task>, kind: string, accepts: Props -> bool)
    requires Matches(tasks, kind, accepts)
    ensures HasKind(tasks, kind)
    ensures accepts(tasks[FirstOfKind(tasks, kind)].props) <==> !Shadowed(tasks, kind, accepts)
  {
    var k := FirstOfKind(tasks, kind);
    if Shadowed(tasks, kind, accepts) {
      var j :| 0 <= j < |tasks| && tasks[j].kind == kind && !accepts(tasks[j].props)
            && forall i | 0 <= i < |tasks| && tasks[i].kind == kind && accepts(tasks[i].props) :: j < i;
      assert k <= j;
    }
  }

  /** The first task of the kind is rejected only if the filter has found an acceptable one behind it. */
  lemma FilterLooksFurther(tasks: seq<Task>, kind: string, accepts: Props -> bool)
    requires Matches(tasks, kind, accepts)
    ensures var first := FirstOfKind(tasks, kind);
            first < |tasks|
            && (!accepts(tasks[first].props) ==>
                  exists i :: first < i < |tasks| && tasks[i].kind == kind && accepts(tasks[i].props))
  {
    var i :| 0 <= i < |tasks| && tasks[i].kind == kind && accepts(tasks[i].props);
    assert FirstOfKind(tasks, kind) <= i;
  }

  /** A message with a pdf task before a docx task passes the docx filter and loses its pdf task. */
  lemma FilterCanDisagreeWithRemoval() returns (tasks: seq<Task>, accepts: Props -> bool)
    ensures UniqueIds(tasks) && Matches(tasks, "extract", accepts)
    ensures FirstOfKind(tasks, "extract") < |tasks|
    ensures !accepts(tasks[FirstOfKind(tasks, "extract")].props)
  {
    var pdf := Task("extract", "0", map["document_type" := "pdf"]);
    var docx := Task("extract", "1", map["document_type" := "docx"]);
    tasks := [pdf, docx];
    accepts := (p: Props) => "document_type" in p && p["document_type"] == "docx";
    assert tasks[1].kind == "extract" && accepts(tasks[1].props);
    assert tasks[0].kind == "extract";
    assert pdf.props["document_type"][0] == 'p' && docx.props["document_type"][0] == 'd';
  }

  /** The message object of the pipeline, updated in place. */
  class IngestControlMessage {
    var tasks: seq<Task>
    var metadata: map<string, Meta>
    var payload: Frame

    ghost predicate Valid() reads this {
      UniqueIds(tasks)
    }

    ghost function View(): Message reads this {
      Message(tasks, metadata, payload)
    }

    constructor ()
      ensures Valid() && View() == Message([], map[], [])
    {
      tasks, metadata, payload := [], map[], [];
    }

    method AddTask(task: Task) returns (ok: bool)
      requires Valid()
      modifies this
      ensures Valid()
      ensures ok <==> forall t | t in old(tasks) :: t.id != task.id
      ensures View() == if ok then old(View()).(tasks := old(tasks) + [task]) else old(View())
    {
      ok := forall t | t in tasks :: t.id != task.id;
      if ok {
        tasks := tasks + [task];
      }
    }

    /** Removing by id: the one task with that id, or an error and an unchanged table. */
    method RemoveTask(id: string) returns (removed: Option<Task>)
      requires Valid()
      modifies this
      ensures Valid()
      ensures removed.None? <==> forall t | t in old(tasks) :: t.id != id
      ensures removed.None? ==> View() == old(View())
      ensures removed.Some? ==>
                exists i :: 0 <= i < |old(tasks)| && old(tasks)[i] == removed.value && removed.value.id == id
                         && View() == old(View()).(tasks := old(tasks)[..i] + old(tasks)[i + 1..])
    {
      removed := None;
      for i := 0 to |tasks|
        invariant removed.None? && unchanged(this)
        invariant forall j | 0 <= j < i :: tasks[j].id != id
      {
        if tasks[i].id == id {
          removed := Some(tasks[i]);
          tasks := tasks[..i] + tasks[i + 1..];
          return;
        }
      }
    }

    /** Setting the payload; no argument means reading it, and leaves the message alone. */
    method SetPayload(frame: Option<Frame>)
      modifies this
      ensures View() == if frame.Some? then old(View()).(payload := frame.value) else old(View())
    {
      if frame.Some? {
        payload := frame.value;
      }
    }

    method SetMetadata(key: string, value: Meta)
      modifies this
      ensures View() == old(View()).(metadata := old(metadata)[key := value])
    {
      metadata := metadata[key := value];
    }

    /** What the failure context manager does to a message when the wrapped function raises: two keys are set, and
        all other metadata stay. */
    method MarkFailed(reason: string)
      modifies this
      ensures View() == SetFailure(old(View()), reason)
      ensures Failed(View()) && tasks == old(tasks) && payload == old(payload)
      ensures metadata == old(metadata)["cm_failed" := Flag(true)]["cm_failed_reason" := Text(reason)]
    {
      SetMetadata(CM_FAILED, Flag(true));
      SetMetadata(CM_FAILED_REASON, Text(reason));
    }
  }

  /** Looks for the first task of a kind and removes it by its id. */
  method RemoveTaskByType(msg: IngestControlMessage, kind: string) returns (props: Option<Props>)
    requires msg.Valid()
    modifies msg
    ensures msg.Valid()
    ensures props.Some? <==> HasKind(old(msg.tasks), kind)
    ensures props.Some? ==> props.value == old(msg.tasks)[FirstOfKind(old(msg.tasks), kind)].props
    ensures msg.View() == old(msg.View()).(tasks := WithoutFirst(old(msg.tasks), kind))
  {
    props := None;
    for i := 0 to |msg.tasks|
      invariant props.None? && unchanged(msg)
      invariant forall j | 0 <= j < i :: msg.tasks[j].kind != kind
    {
      if msg.tasks[i].kind == kind {
        assert FirstOfKind(msg.tasks, kind) == i;
        var removed := msg.RemoveTask(msg.tasks[i].id);
        props := Some(removed.value.props);
        return;
      }
    }
  }
}
