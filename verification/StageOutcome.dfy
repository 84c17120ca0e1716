// What leaves the multiprocessing stage, said of the message that came and the message that goes alone: its tasks,
// its payload and its metadata.

module StageOutcome {
  import opened Wrappers
  import opened ControlMessages
  import opened StageModel
  import opened StageInvariant
  import opened StageTheorems

  /** The message is marked as failed. */
  predicate Marked(m: Message) {
    "cm_failed" in m.metadata && m.metadata["cm_failed"] !in {Flag(false), Text("")}
  }

  /** The stage has something to do for the message: one not marked as failed, with a task that is let in. */
  predicate Eligible(cfg: Config, m: Message) {
    !Marked(m) && exists i :: 0 <= i < |m.tasks| && m.tasks[i].kind == cfg.task && cfg.accepts(m.tasks[i].props)
  }

  predicate WantsTimestamps(m: Message) {
    "config::add_trace_tagging" in m.metadata && m.metadata["config::add_trace_tagging"] == Flag(true)
  }

  /** Why a message that the worker makes this of is marked as failed, if it is. */
  function Complaint(m: Message, made: Outcome): Option<string> {
    match made
    case Raised(reason) => Some(reason)
    case Returned(Foreign, _) => Some("Payload must be a pandas DataFrame")
    case Returned(_, Some(reason)) => if WantsTimestamps(m) then Some(reason) else None
    case Returned(_, None) => None
  }

  /** This is the first task of the stage's kind. */
  ghost predicate IsFirstTask(cfg: Config, m: Message, k: nat) {
    && k < |m.tasks| && m.tasks[k].kind == cfg.task
    && forall i | 0 <= i < k :: m.tasks[i].kind != cfg.task
  }

  predicate SameAt(a: map<string, Meta>, b: map<string, Meta>, key: string) {
    (key in a <==> key in b) && (key in a ==> a[key] == b[key])
  }

  /** The metadata stays; only a failed message gets the mark and the reason. */
  ghost predicate MetadataAfter(before: map<string, Meta>, after: map<string, Meta>, complaint: Option<string>) {
    && (forall key | key != "cm_failed" && key != "cm_failed_reason" :: SameAt(before, after, key))
    && (complaint.None? ==> after == before)
    && (complaint.Some? ==>
          && "cm_failed" in after && after["cm_failed"] == Flag(true)
          && "cm_failed_reason" in after
          && after["cm_failed_reason"] == Text("Error in cm_func: " + complaint.value))
  }

  lemma TakenInIff(cfg: Config, m: Message)
    ensures TakenIn(cfg, m) <==> Eligible(cfg, m)
    ensures Failed(m) <==> Marked(m)
  {
  }

  /** What the reconstruct node makes of a message that is not marked. */
  lemma CompletedAs(m: Message, made: Outcome, pkg: Package)
    requires !Marked(m)
    requires match made
             case Returned(value, traceError) => pkg.error.None? && pkg.payload == value && pkg.traceError == traceError
             case Raised(reason) => pkg.error == Some(reason)
    ensures var out := Completion(m, pkg);
            && out.tasks == m.tasks
            && out.payload == (if made.Returned? && made.value.Table? then made.value.frame else m.payload)
            && MetadataAfter(m.metadata, out.metadata, Complaint(m, made))
  {
    assert Tagged(m) <==> WantsTimestamps(m);
  }

  /** The first task of the kind is gone from what the stage owes for a message it takes in, and the rest follows
      from what the worker makes of its payload and of that task. */
  lemma OwedForOne(cfg: Config, m: Message, k: nat)
    requires Eligible(cfg, m) && IsFirstTask(cfg, m, k)
    ensures var made, out := cfg.process(Table(m.payload), m.tasks[k].props), Expected(cfg, m);
            && out.tasks == m.tasks[..k] + m.tasks[k + 1..]
            && out.payload == (if made.Returned? && made.value.Table? then made.value.frame else m.payload)
            && MetadataAfter(m.metadata, out.metadata, Complaint(m, made))
  {
    TakenInIff(cfg, m);
    assert FirstOfKind(m.tasks, cfg.task) == k;
    var made := cfg.process(Table(m.payload), m.tasks[k].props);
    CompletedAs(Consumed(cfg, m), made, Handle(cfg, WorkPackage(cfg, m, 0)).pkg);
    assert Complaint(Consumed(cfg, m), made) == Complaint(m, made);
  }

  /** Over every run: what leaves the stage. A message the stage has nothing to do for is as it came. Any other has
      lost the first of its tasks of the kind and carries the worker's data frame, if there is one. Its metadata are
      what they were, but for the mark and the reason of a failure, which it gets exactly if the worker raised,
      handed back something foreign, or handed back a bad timestamp while timestamps are wanted. */
  lemma LeavesAs(cfg: Config, n: nat, steps: seq<Step>, t: Stage, i: nat)
    requires Reachable(cfg, n, steps, t) && i < |t.emitted|
    ensures t.emitted[i] < |t.original| == |t.heap|
    ensures var m, out := t.original[t.emitted[i]], t.heap[t.emitted[i]];
            && (!Eligible(cfg, m) ==> out == m)
            && (Eligible(cfg, m) ==>
                  exists k: nat :: IsFirstTask(cfg, m, k)
                    && var made := cfg.process(Table(m.payload), m.tasks[k].props);
                       && out.tasks == m.tasks[..k] + m.tasks[k + 1..]
                       && out.payload == (if made.Returned? && made.value.Table? then made.value.frame else m.payload)
                       && MetadataAfter(m.metadata, out.metadata, Complaint(m, made)))
  {
    OutputIsExpected(cfg, n, steps, t, i);
    var m := t.original[t.emitted[i]];
    TakenInIff(cfg, m);
    if Eligible(cfg, m) {
      var k := FirstOfKind(m.tasks, cfg.task);
      OwedForOne(cfg, m, k);
    }
  }

  /** So the channel on which the answer to a message is awaited survives its failure, and a failure that the message
      came with keeps its reason. */
  lemma MetadataKept(cfg: Config, n: nat, steps: seq<Step>, t: Stage, i: nat, key: string)
    requires Reachable(cfg, n, steps, t) && i < |t.emitted|
    requires key !in {"cm_failed", "cm_failed_reason"}
             || (t.emitted[i] < |t.original| && Marked(t.original[t.emitted[i]]))
    ensures t.emitted[i] < |t.original| == |t.heap|
    ensures SameAt(t.original[t.emitted[i]].metadata, t.heap[t.emitted[i]].metadata, key)
  {
    LeavesAs(cfg, n, steps, t, i);
  }
}
