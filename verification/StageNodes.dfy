// The node functions and thread loops of the multiprocessing stage in the form the stage has them: message
// objects updated in place, a ledger inserted into and popped, loops over the events of a queue.

module StageNodes {
  import opened Wrappers
  import opened ControlMessages
  import opened StageModel

  /** What the parent thread calls on its subscriber. */
  datatype SubscriberCall = CallOnNext(pkg: Package) | CallOnCompleted

  /** The child's answer to one event of its input queue. */
  function Answer(cfg: Config, ev: Event): Event {
    if ev.OnNext? then Handle(cfg, ev.pkg) else ev
  }

  function Answers(cfg: Config, events: seq<Event>): seq<Event> {
    seq(|events|, i requires 0 <= i < |events| => Answer(cfg, events[i]))
  }

  /** The position of the first completion event, or the length of the stream. */
  function UntilCompleted(events: seq<Event>): (n: nat)
    ensures n <= |events|
    ensures forall i | 0 <= i < n :: !events[i].Completed?
    ensures n < |events| ==> events[n].Completed?
  {
    if events == [] || events[0].Completed? then 0 else 1 + UntilCompleted(events[1..])
  }

  function Deliveries(events: seq<Event>): seq<SubscriberCall>
    requires forall i | 0 <= i < |events| :: !events[i].Completed?
  {
    seq(|events|, i requires 0 <= i < |events| => CallOnNext(events[i].pkg))
  }

  class MultiProcessingBaseStage {
    const cfg: Config
    var ledger: map<Id, IngestControlMessage>

    constructor (cfg: Config)
      ensures this.cfg == cfg && ledger == map[]
    {
      this.cfg := cfg;
      ledger := map[];
    }

    /** on_next under its task filter and its failure decorator, up to the put: either the message enters the
        ledger and its work package goes to the input queue, or it goes to forward_fn as it is. */
    method OnNext(msg: IngestControlMessage, id: Id) returns (ev: Option<Event>)
      requires msg.Valid()
      modifies this`ledger, msg
      ensures msg.Valid()
      ensures if TakenIn(cfg, old(msg.View()))
              then ev == Some(Event.OnNext(WorkPackage(cfg, old(msg.View()), id)))
                   && ledger == old(ledger)[id := msg]
                   && msg.View() == Consumed(cfg, old(msg.View()))
              else ev == None && ledger == old(ledger) && msg.View() == old(msg.View())
    {
      if !Matches(msg.tasks, cfg.task, cfg.accepts) || (CM_FAILED in msg.metadata && Truthy(msg.metadata[CM_FAILED])) {
        return None;
      }
      ghost var before := msg.View();
      var df := msg.payload;
      FilterAgreesWithRemoval(msg.tasks, cfg.task, cfg.accepts);
      var props := RemoveTaskByType(msg, cfg.task);
      ledger := ledger[id := msg];
      ev := Some(Event.OnNext(Package(id, Table(df), props.value, None, None)));
    }

    /** The child thread: one answer per event up to and including the completion event, then a completion
        event of its own. */
    method WorkPackageInputHandler(events: seq<Event>) returns (replies: seq<Event>)
      requires UntilCompleted(events) < |events|
      ensures replies == Answers(cfg, events[..UntilCompleted(events)]) + [Completed, Completed]
    {
      replies := [];
      var i := 0;
      while true
        invariant i <= UntilCompleted(events) && replies == Answers(cfg, events[..i])
        decreases |events| - i
      {
        var ev := events[i];
        if ev.Completed? {
          replies := replies + [ev];
          break;
        }
        assert events[..i + 1] == events[..i] + [ev];
        replies := replies + [Answer(cfg, ev)];
        i := i + 1;
      }
      replies := replies + [Completed];
    }

    /** The parent thread: results and errors alike go to sub.on_next, until the first completion event; the
        subscriber is told twice that the stream has completed. */
    method WorkPackageResponseHandler(events: seq<Event>) returns (calls: seq<SubscriberCall>)
      requires UntilCompleted(events) < |events|
      ensures calls == Deliveries(events[..UntilCompleted(events)]) + [CallOnCompleted, CallOnCompleted]
    {
      calls := [];
      var i := 0;
      while true
        invariant i <= UntilCompleted(events) && calls == Deliveries(events[..i])
        decreases |events| - i
      {
        var ev := events[i];
        if ev.Completed? {
          calls := calls + [CallOnCompleted];
          break;
        }
        assert events[..i + 1] == events[..i] + [ev];
        calls := calls + [CallOnNext(ev.pkg)];
        i := i + 1;
      }
      calls := calls + [CallOnCompleted];
    }

    /** The reconstruct node: pops the ledger and completes the message object found there. */
    method ReconstructFn(pkg: Package) returns (msg: IngestControlMessage)
      requires pkg.id in ledger
      modifies this`ledger, ledger.Values
      ensures msg == old(ledger)[pkg.id] && ledger == old(ledger) - {pkg.id}
      ensures msg.View() == Completion(old(ledger[pkg.id].View()), pkg)
      ensures forall key | key !in {"cm_failed", "cm_failed_reason"} ::
                && (key in msg.metadata <==> key in old(ledger[pkg.id].metadata))
                && (key in msg.metadata ==> msg.metadata[key] == old(ledger[pkg.id].metadata)[key])
      ensures forall other | other in old(ledger).Values && other != msg :: other.View() == old(other.View())
    {
      msg := ledger[pkg.id];
      assert msg in ledger.Values;
      ledger := ledger - {pkg.id};
      if CM_FAILED in msg.metadata && Truthy(msg.metadata[CM_FAILED]) {
        return;
      }
      if pkg.error.Some? {
        msg.MarkFailed("Error in cm_func: " + pkg.error.value);
      } else {
        match pkg.payload {
          case Table(frame) => msg.SetPayload(Some(frame));
          case Nothing => msg.SetPayload(None);
          case Foreign =>
            msg.MarkFailed("Error in cm_func: " + FOREIGN_PAYLOAD);
            return;
        }
        var tagging := ADD_TRACE_TAGGING in msg.metadata && msg.metadata[ADD_TRACE_TAGGING] == Flag(true);
        if tagging && pkg.traceError.Some? {
          msg.MarkFailed("Error in cm_func: " + pkg.traceError.value);
        }
      }
    }
  }

  /** The two thread loops of an engine put together: for a stream of work packages that ends, the
      subscriber gets every package once, handled, in the order sent, and then two completions. */
  lemma LoopsComposed(cfg: Config, pkgs: seq<Package>, events: seq<Event>, replies: seq<Event>)
    requires events == seq(|pkgs|, i requires 0 <= i < |pkgs| => Event.OnNext(pkgs[i])) + [Completed]
    requires replies == Answers(cfg, events[..UntilCompleted(events)]) + [Completed, Completed]
    ensures UntilCompleted(events) == |pkgs| == UntilCompleted(replies)
    ensures Deliveries(replies[..UntilCompleted(replies)])
         == seq(|pkgs|, i requires 0 <= i < |pkgs| => CallOnNext(Handle(cfg, pkgs[i]).pkg))
  {
    var n := UntilCompleted(events);
    assert events[|pkgs|].Completed?;
    assert n == |pkgs|;
    var m := UntilCompleted(replies);
    assert forall i | 0 <= i < |pkgs| :: replies[i] == Handle(cfg, pkgs[i]);
    assert replies[|pkgs|].Completed?;
    assert m == |pkgs|;
    assert forall i | 0 <= i < |pkgs| :: Deliveries(replies[..m])[i] == CallOnNext(Handle(cfg, pkgs[i]).pkg);
  }
}
