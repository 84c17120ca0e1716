// Publishing a result on the broker, with retries, and what a fetch finds after that.

module Publishing {
  import opened Wrappers
  import opened Fragmentation
  import opened Fetching

  /** What one submit comes to, and how many copies of the message it leaves on the channel: a client may answer
      for a broker that has refused the message, and may have repeated it inside. */
  datatype Submit = Returns(copies: nat) | RaisesValueError(copies: nat) | RaisesOther(copies: nat)

  datatype Error = Oversized | SubmitFailed(how: Submit) | NotPrepared | NoDataFrame | NoFragments

  datatype Outcome = Returned | Raised(error: Error)

  function Copies(message: Wire, n: nat): seq<Wire> {
    seq(n, _ => message)
  }

  /** The broker may fail at any submit: the script says what the n-th submit comes to. */
  class BrokerClient {
    const script: nat -> Submit
    var calls: nat
    var channel: seq<Wire>

    constructor (script: nat -> Submit)
      ensures this.script == script && calls == 0 && channel == []
    {
      this.script, calls, channel := script, 0, [];
    }

    method SubmitMessage(message: Wire) returns (how: Submit)
      modifies this
      ensures how == script(old(calls)) && calls == old(calls) + 1
      ensures channel == old(channel) + Copies(message, how.copies)
    {
      how := script(calls);
      calls := calls + 1;
      channel := channel + Copies(message, how.copies);
    }
  }

  // ---------------------------------------------------------------------------
  // What a push comes to
  // ---------------------------------------------------------------------------

  /** The messages put on the channel, the number of submits made, and how it ended. */
  datatype Publication = Publication(added: seq<Wire>, calls: nat, outcome: Outcome)

  /** How many submits of one attempt return before one raises. */
  function Passed(script: nat -> Submit, at: nat, messages: seq<Wire>): (n: nat)
    ensures n <= |messages|
    ensures forall q: nat | at <= q < at + n :: script(q).Returns?
    ensures n < |messages| ==> !script(at + n).Returns?
    decreases |messages|
  {
    if messages == [] || !script(at).Returns? then 0 else 1 + Passed(script, at + 1, messages[1..])
  }

  /** What submitting all of the messages leaves on the channel. */
  function Arriving(script: nat -> Submit, at: nat, messages: seq<Wire>): seq<Wire>
    decreases |messages|
  {
    if messages == [] then []
    else Copies(messages[0], script(at).copies) + Arriving(script, at + 1, messages[1..])
  }

  /** What an attempt leaves: its submits up to and including the first that raises. */
  function AttemptAdds(script: nat -> Submit, at: nat, messages: seq<Wire>): seq<Wire> {
    var n := Passed(script, at, messages);
    Arriving(script, at, messages[..if n < |messages| then n + 1 else n])
  }

  /** A push after broken attempts with the additions and calls in done. */
  function Publish(script: nat -> Submit, at: nat, messages: seq<Wire>, tries: nat, done: Publication): Publication
    decreases tries
  {
    if tries == 0 then done
    else
      var n := Passed(script, at, messages);
      var added := done.added + AttemptAdds(script, at, messages);
      if n == |messages| then Publication(added, done.calls + n, Returned)
      else
        var how := script(at + n);
        var broken := Publication(added, done.calls + n + 1, Raised(SubmitFailed(how)));
        if how.RaisesOther? || tries == 1 then broken
        else Publish(script, at + n + 1, messages, tries - 1, broken)
  }

  const nothingYet := Publication([], 0, Returned)

  predicate TooLarge(message: Wire) {
    !message.Garbled? && SizeOf(message.text) > BROKER_LIMIT
  }

  function Pushed(script: nat -> Submit, at: nat, messages: seq<Wire>, retryCount: int): Publication {
    if exists i :: 0 <= i < |messages| && TooLarge(messages[i]) then Publication([], 0, Raised(Oversized))
    else Publish(script, at, messages, Tries(retryCount), nothingYet)
  }

  function Tries(retryCount: int): nat {
    if retryCount < 0 then 0 else retryCount
  }

  lemma {:induction false} ArrivingConcat(script: nat -> Submit, at: nat, a: seq<Wire>, b: seq<Wire>)
    ensures Arriving(script, at, a + b) == Arriving(script, at, a) + Arriving(script, at + |a|, b)
    decreases |a|
  {
    if a == [] {
      assert a + b == b;
    } else {
      assert (a + b)[1..] == a[1..] + b && (a + b)[0] == a[0];
      ArrivingConcat(script, at + 1, a[1..], b);
      Regroup(Copies(a[0], script(at).copies), Arriving(script, at + 1, a[1..]), Arriving(script, at + |a|, b));
    }
  }

  lemma OneMoreArrives(script: nat -> Submit, at: nat, messages: seq<Wire>, i: nat)
    requires i < |messages|
    ensures Arriving(script, at, messages[..i + 1])
         == Arriving(script, at, messages[..i]) + Copies(messages[i], script(at + i).copies)
  {
    assert messages[..i + 1] == messages[..i] + [messages[i]];
    ArrivingConcat(script, at, messages[..i], [messages[i]]);
    assert Arriving(script, at + i, [messages[i]]) == Copies(messages[i], script(at + i).copies) + [];
  }

  /** The inner loop of a push: one attempt to submit every message. */
  method SubmitAll(client: BrokerClient, messages: seq<Wire>) returns (failure: Option<Submit>)
    modifies client
    ensures client.channel == old(client.channel) + AttemptAdds(client.script, old(client.calls), messages)
    ensures var n := Passed(client.script, old(client.calls), messages);
            if n == |messages| then failure.None? && client.calls == old(client.calls) + n
            else client.calls == old(client.calls) + n + 1
                 && failure == Some(client.script(old(client.calls) + n))
  {
    ghost var at, channel := client.calls, client.channel;
    ghost var n := Passed(client.script, at, messages);
    var i := 0;
    while i < |messages|
      invariant i <= n && client.calls == at + i
      invariant client.channel == channel + Arriving(client.script, at, messages[..i])
    {
      OneMoreArrives(client.script, at, messages, i);
      var how := client.SubmitMessage(messages[i]);
      if !how.Returns? {
        return Some(how);
      }
      i := i + 1;
    }
    return None;
  }

  /** How an attempt of that many passed submits adds to what is done. */
  function Attempted(adds: seq<Wire>, n: nat, failure: Option<Submit>, done: Publication): Publication {
    if failure.None? then Publication(done.added + adds, done.calls + n, Returned)
    else Publication(done.added + adds, done.calls + n + 1, Raised(SubmitFailed(failure.value)))
  }

  /** One attempt: it returns, is given up, or leaves the rest of the tries. */
  lemma PublishOnce(script: nat -> Submit, at: nat, messages: seq<Wire>, tries: nat, done: Publication, next: nat,
                    failure: Option<Submit>)
    requires tries > 0
    requires var n := Passed(script, at, messages);
             if n == |messages| then failure.None? && next == at + n
             else next == at + n + 1 && failure == Some(script(at + n))
    ensures var done' := Attempted(AttemptAdds(script, at, messages), Passed(script, at, messages), failure, done);
            Publish(script, at, messages, tries, done) ==
              if failure.None? || failure.value.RaisesOther? || tries == 1 then done'
              else Publish(script, next, messages, tries - 1, done')
  {
  }

  /** An attempt, on top of what earlier ones have left on the channel. */
  method Attempt(client: BrokerClient, messages: seq<Wire>, ghost tries: nat, ghost done: Publication,
                 ghost channel: seq<Wire>, ghost start: nat)
      returns (failure: Option<Submit>, ghost done': Publication)
    requires tries > 0 && client.channel == channel + done.added && client.calls == start + done.calls
    modifies client
    ensures client.channel == channel + done'.added && client.calls == start + done'.calls
    ensures done'.outcome == if failure.None? then Returned else Raised(SubmitFailed(failure.value))
    ensures Publish(client.script, old(client.calls), messages, tries, done) ==
              if failure.None? || failure.value.RaisesOther? || tries == 1 then done'
              else Publish(client.script, client.calls, messages, tries - 1, done')
  {
    ghost var at := client.calls;
    ghost var adds := AttemptAdds(client.script, at, messages);
    Regroup(channel, done.added, adds);
    failure := SubmitAll(client, messages);
    done' := Attempted(adds, Passed(client.script, at, messages), failure, done);
    PublishOnce(client.script, at, messages, tries, done, client.calls, failure);
  }

  lemma Regroup(a: seq<Wire>, b: seq<Wire>, c: seq<Wire>)
    ensures a + b + c == a + (b + c)
  {
  }

  /** The retry loop of a push. */
  method SubmitWithRetries(client: BrokerClient, messages: seq<Wire>, retryCount: int) returns (outcome: Outcome)
    requires retryCount > 0
    modifies client
    ensures var p := Publish(client.script, old(client.calls), messages, retryCount, nothingYet);
            outcome == p.outcome && client.channel == old(client.channel) + p.added
            && client.calls == old(client.calls) + p.calls
  {
    ghost var channel, start := client.channel, client.calls;
    ghost var whole := Publish(client.script, start, messages, retryCount, nothingYet);
    ghost var done := nothingYet;
    var attempt := 0;
    while true
      invariant 0 <= attempt < retryCount
      invariant client.channel == channel + done.added && client.calls == start + done.calls
      invariant whole == Publish(client.script, client.calls, messages, retryCount - attempt, done)
      decreases retryCount - attempt
    {
      var failure;
      failure, done := Attempt(client, messages, retryCount - attempt, done, channel, start);
      if failure.None? {
        return Returned;
      }
      if failure.value.RaisesOther? || attempt == retryCount - 1 {
        return Raised(SubmitFailed(failure.value));
      }
      attempt := attempt + 1;
    }
  }

  /** A message whose text, with the 49 bytes that a string has around it, is above 2^28 bytes. */
  predicate Huge(message: Wire) {
    !message.Garbled? && |message.text| + 49 > 0x1000_0000
  }

  lemma {:induction false} PublishIsNotOversized(script: nat -> Submit, at: nat, messages: seq<Wire>, tries: nat,
                                                 done: Publication)
    requires done.outcome != Raised(Oversized)
    ensures Publish(script, at, messages, tries, done).outcome != Raised(Oversized)
    decreases tries
  {
    var n := Passed(script, at, messages);
    if tries > 1 && n < |messages| && !script(at + n).RaisesOther? {
      var broken := Publication(done.added + AttemptAdds(script, at, messages), done.calls + n + 1,
                                Raised(SubmitFailed(script(at + n))));
      PublishIsNotOversized(script, at + n + 1, messages, tries - 1, broken);
    }
  }

  /** A push is refused for the size of a message if and only if there is a huge one, whatever the broker does; then
      nothing is sent. */
  lemma OversizedIff(script: nat -> Submit, at: nat, messages: seq<Wire>, retryCount: int)
    ensures var p := Pushed(script, at, messages, retryCount);
            && (p.outcome == Raised(Oversized) <==> exists i :: 0 <= i < |messages| && Huge(messages[i]))
            && (p.outcome == Raised(Oversized) ==> p.added == [] && p.calls == 0)
  {
    if i :| 0 <= i < |messages| && Huge(messages[i]) {
      assert TooLarge(messages[i]);
    } else {
      assert forall i | 0 <= i < |messages| :: !TooLarge(messages[i]) by {
        forall i | 0 <= i < |messages| ensures !TooLarge(messages[i]) {
          assert !Huge(messages[i]);
        }
      }
      PublishIsNotOversized(script, at, messages, Tries(retryCount), nothingYet);
    }
  }

  method PushToBroker(client: BrokerClient, messages: seq<Wire>, retryCount: int) returns (outcome: Outcome)
    modifies client
    ensures var p := Pushed(client.script, old(client.calls), messages, retryCount);
            outcome == p.outcome && client.channel == old(client.channel) + p.added
            && client.calls == old(client.calls) + p.calls
    ensures outcome == Raised(Oversized) <==> exists i :: 0 <= i < |messages| && Huge(messages[i])
    ensures outcome == Raised(Oversized) ==> client.channel == old(client.channel)
  {
    OversizedIff(client.script, client.calls, messages, retryCount);
    for i := 0 to |messages|
      invariant forall j | 0 <= j < i :: !TooLarge(messages[j])
      invariant unchanged(client)
    {
      if !messages[i].Garbled? && SizeOf(messages[i].text) > BROKER_LIMIT {
        return Raised(Oversized);
      }
    }
    if retryCount <= 0 {
      return Returned;
    }
    outcome := SubmitWithRetries(client, messages, retryCount);
  }

  // ---------------------------------------------------------------------------
  // Retries
  // ---------------------------------------------------------------------------

  /** The attempt that starts at the given call breaks off. */
  predicate Breaks(script: nat -> Submit, messages: seq<Wire>, start: nat) {
    Passed(script, start, messages) < |messages|
  }

  ghost predicate AllBreak(script: nat -> Submit, messages: seq<Wire>, starts: seq<nat>) {
    forall i | 0 <= i < |starts| :: Breaks(script, messages, starts[i])
  }

  /** What the attempts that start at these calls leave. */
  function Leavings(script: nat -> Submit, messages: seq<Wire>, starts: seq<nat>): seq<Wire> {
    if starts == [] then [] else AttemptAdds(script, starts[0], messages) + Leavings(script, messages, starts[1..])
  }

  /** Publishing under retries, for every pattern of submit outcomes: a normal return is one of an attempt in which
      no submit raises, after fewer broken attempts than tries; an error comes after broken attempts only, and all
      tries are used up unless the error is one that is not retried. */
  lemma PublishingUnderRetries(script: nat -> Submit, at: nat, messages: seq<Wire>, tries: nat)
      returns (starts: seq<nat>)
    requires tries >= 1
    ensures AllBreak(script, messages, starts)
    ensures var p := Publish(script, at, messages, tries, nothingYet);
            if p.outcome.Returned? then
              && |starts| < tries && p.calls >= |messages|
              && var last := at + p.calls - |messages|;
                 Passed(script, last, messages) == |messages|
                 && p.added == Leavings(script, messages, starts) + Arriving(script, last, messages)
            else
              && 1 <= |starts| <= tries && p.added == Leavings(script, messages, starts)
              && p.outcome.error.SubmitFailed? && (p.outcome.error.how.RaisesValueError? ==> |starts| == tries)
  {
    starts := BrokenAttempts(script, at, messages, tries, nothingYet);
    var p := Publish(script, at, messages, tries, nothingYet);
    if p.outcome.Returned? {
      var last := LastAttempt(script, at, messages, tries, p, starts);
      assert last == at + p.calls - |messages|;
    } else {
      GivesUp(script, at, messages, tries, p, starts);
    }
  }

  lemma GivesUp(script: nat -> Submit, at: nat, messages: seq<Wire>, tries: nat, p: Publication, starts: seq<nat>)
    requires Accounted(script, at, messages, tries, nothingYet, p, starts) && !p.outcome.Returned?
    ensures AllBreak(script, messages, starts)
    ensures 1 <= |starts| <= tries && p.added == Leavings(script, messages, starts)
    ensures p.outcome.error.SubmitFailed? && (p.outcome.error.how.RaisesValueError? ==> |starts| == tries)
  {
    var left := Leavings(script, messages, starts);
    assert nothingYet.added + left == left;
  }

  /** How a push that starts at a call comes about from what was done before, the broken attempts that start at
      these calls, and for a normal return one attempt more. */
  ghost predicate Accounted(script: nat -> Submit, at: nat, messages: seq<Wire>, tries: nat, done: Publication,
                            p: Publication, starts: seq<nat>)
  {
    && AllBreak(script, messages, starts)
    && Balanced(script, at, messages, tries, done, p, |starts|, Leavings(script, messages, starts))
  }

  /** The same, for so many broken attempts that have left this much. */
  ghost predicate Balanced(script: nat -> Submit, at: nat, messages: seq<Wire>, tries: nat, done: Publication,
                           p: Publication, broken: nat, left: seq<Wire>)
  {
    if p.outcome.Returned? then
      && broken < tries && p.calls >= done.calls + |messages|
      && var last := at + p.calls - done.calls - |messages|;
         Passed(script, last, messages) == |messages|
         && p.added == done.added + left + Arriving(script, last, messages)
    else
      && 1 <= broken <= tries && p.added == done.added + left
      && p.outcome.error.SubmitFailed? && (p.outcome.error.how.RaisesValueError? ==> broken == tries)
  }

  lemma FirstLeaving(script: nat -> Submit, messages: seq<Wire>, before: seq<Wire>, start: nat, rest: seq<nat>)
    requires Breaks(script, messages, start) && AllBreak(script, messages, rest)
    ensures AllBreak(script, messages, [start] + rest)
    ensures before + Leavings(script, messages, [start] + rest)
         == before + AttemptAdds(script, start, messages) + Leavings(script, messages, rest)
  {
    assert ([start] + rest)[1..] == rest;
    Regroup(before, AttemptAdds(script, start, messages), Leavings(script, messages, rest));
  }

  lemma ReturnsAtOnce(script: nat -> Submit, at: nat, messages: seq<Wire>, tries: nat, done: Publication)
    requires tries > 0 && Passed(script, at, messages) == |messages|
    ensures Accounted(script, at, messages, tries, done, Publish(script, at, messages, tries, done), [])
  {
    assert messages[..|messages|] == messages;
    assert done.added + [] == done.added;
  }

  lemma BreaksFor(script: nat -> Submit, at: nat, messages: seq<Wire>, tries: nat, done: Publication)
    requires tries > 0 && Breaks(script, messages, at)
    requires script(at + Passed(script, at, messages)).RaisesOther? || tries == 1
    ensures Accounted(script, at, messages, tries, done, Publish(script, at, messages, tries, done), [at])
  {
    FirstLeaving(script, messages, done.added, at, []);
    var adds := AttemptAdds(script, at, messages);
    assert done.added + adds + [] == done.added + adds;
    assert [at] + [] == [at];
  }

  lemma BreaksBefore(script: nat -> Submit, at: nat, messages: seq<Wire>, tries: nat, done: Publication,
                     broken: Publication, p: Publication, rest: seq<nat>)
    requires tries > 1 && Breaks(script, messages, at)
    requires broken.added == done.added + AttemptAdds(script, at, messages)
    requires broken.calls == done.calls + Passed(script, at, messages) + 1
    requires Accounted(script, at + Passed(script, at, messages) + 1, messages, tries - 1, broken, p, rest)
    ensures Accounted(script, at, messages, tries, done, p, [at] + rest)
  {
    FirstLeaving(script, messages, done.added, at, rest);
    BreaksOnce(script, at, at + Passed(script, at, messages) + 1, messages, tries, done, broken, p, rest, [at] + rest);
  }

  lemma BreaksOnce(script: nat -> Submit, at: nat, next: nat, messages: seq<Wire>, tries: nat, done: Publication,
                   broken: Publication, p: Publication, rest: seq<nat>, starts: seq<nat>)
    requires tries > 1 && Accounted(script, next, messages, tries - 1, broken, p, rest)
    requires AllBreak(script, messages, starts) && |starts| == |rest| + 1
    requires done.added + Leavings(script, messages, starts) == broken.added + Leavings(script, messages, rest)
    requires next - broken.calls == at - done.calls && done.calls <= broken.calls
    ensures Accounted(script, at, messages, tries, done, p, starts)
  {
    BalancedBefore(script, at, next, messages, tries, done, broken, p, |rest|, Leavings(script, messages, rest),
                   Leavings(script, messages, starts));
  }

  lemma BalancedBefore(script: nat -> Submit, at: nat, next: nat, messages: seq<Wire>, tries: nat, done: Publication,
                       broken: Publication, p: Publication, n: nat, left: seq<Wire>, left': seq<Wire>)
    requires tries > 1 && Balanced(script, next, messages, tries - 1, broken, p, n, left)
    requires done.added + left' == broken.added + left && next - broken.calls == at - done.calls
    requires done.calls <= broken.calls
    ensures Balanced(script, at, messages, tries, done, p, n + 1, left')
  {
    assert next + p.calls - broken.calls - |messages| == at + p.calls - done.calls - |messages|;
  }

  lemma {:induction false} BrokenAttempts(script: nat -> Submit, at: nat, messages: seq<Wire>, tries: nat,
                                          done: Publication) returns (starts: seq<nat>)
    requires tries >= 1
    ensures Accounted(script, at, messages, tries, done, Publish(script, at, messages, tries, done), starts)
    decreases tries
  {
    var n := Passed(script, at, messages);
    if n == |messages| {
      starts := [];
      ReturnsAtOnce(script, at, messages, tries, done);
    } else if script(at + n).RaisesOther? || tries == 1 {
      starts := [at];
      BreaksFor(script, at, messages, tries, done);
    } else {
      var broken := Publication(done.added + AttemptAdds(script, at, messages), done.calls + n + 1,
                                Raised(SubmitFailed(script(at + n))));
      var rest := BrokenAttempts(script, at + n + 1, messages, tries - 1, broken);
      starts := [at] + rest;
      BreaksBefore(script, at, messages, tries, done, broken, Publish(script, at, messages, tries, done), rest);
    }
  }

  ghost predicate AllDifferent(messages: seq<Wire>) {
    forall i, j | 0 <= i < j < |messages| :: messages[i] != messages[j]
  }

  lemma {:induction false} ArrivingAmong(script: nat -> Submit, at: nat, messages: seq<Wire>, i: nat)
    requires i < |Arriving(script, at, messages)|
    ensures Arriving(script, at, messages)[i] in messages
    decreases |messages|
  {
    var k := script(at).copies;
    if i >= k {
      ArrivingAmong(script, at + 1, messages[1..], i - k);
    }
  }

  /** The broker takes each of these submits once. */
  ghost predicate EachTakenOnce(script: nat -> Submit, from: int, to: int) {
    forall q: nat | from <= q < to :: script(q).copies == 1
  }

  lemma NoCopyMisses(script: nat -> Submit, start: nat, messages: seq<Wire>)
    requires AllDifferent(messages) && messages != [] && script(start).copies == 0
    ensures Arriving(script, start, messages) != messages
  {
    var rest := Arriving(script, start + 1, messages[1..]);
    assert Arriving(script, start, messages) == rest;
    if rest == messages {
      ArrivingAmong(script, start + 1, messages[1..], 0);
    }
  }

  lemma TwoCopiesRepeat(script: nat -> Submit, start: nat, messages: seq<Wire>)
    requires AllDifferent(messages) && messages != [] && script(start).copies > 1
    ensures Arriving(script, start, messages) != messages
  {
    var arriving := Arriving(script, start, messages);
    assert |arriving| >= 2 && arriving[1] == messages[0];
  }

  /** The payloads of a result with data are published as the fragments of one result, all different. */
  lemma PayloadsAreFragments(payloads: seq<Payload>, failed: bool, tagging: bool, text: Payload -> string)
    requires Numbered(payloads, failed, tagging)
    requires forall i | 0 <= i < |payloads| :: payloads[i].data.Some?
    ensures var messages := seq(|payloads|, i requires 0 <= i < |payloads| => Part(payloads[i], text(payloads[i])));
            Fragments(messages) && AllDifferent(messages) && PayloadsOf(messages) == payloads
  {
    var messages := seq(|payloads|, i requires 0 <= i < |payloads| => Part(payloads[i], text(payloads[i])));
    forall i, j | 0 <= i < j < |messages| ensures messages[i] != messages[j] {
      assert messages[i].payload.fragment == i && messages[j].payload.fragment == j;
    }
  }

  /** When an attempt that returns has put the whole list on the channel: exactly if the broker has taken every
      one of its submits once. That a submit returns is not enough. */
  lemma {:induction false} WholeListIff(script: nat -> Submit, start: nat, messages: seq<Wire>)
    requires AllDifferent(messages)
    ensures Arriving(script, start, messages) == messages <==>
              EachTakenOnce(script, start, start + |messages|)
    decreases |messages|
  {
    if messages != [] {
      var k := script(start).copies;
      if k == 1 {
        WholeListIff(script, start + 1, messages[1..]);
        OneCopyThenRest(messages, Arriving(script, start + 1, messages[1..]));
        assert Copies(messages[0], 1) == [messages[0]];
      } else if k == 0 {
        NoCopyMisses(script, start, messages);
      } else {
        TwoCopiesRepeat(script, start, messages);
      }
    }
  }

  lemma OneCopyThenRest(messages: seq<Wire>, rest: seq<Wire>)
    requires messages != []
    ensures [messages[0]] + rest == messages <==> rest == messages[1..]
  {
    if [messages[0]] + rest == messages {
      assert ([messages[0]] + rest)[1..] == rest;
    }
  }

  /** A push that returns leaves the whole list, behind what its broken attempts left, if and only if the broker
      has taken each submit of its last attempt once. */
  lemma NormalReturnIff(script: nat -> Submit, at: nat, messages: seq<Wire>, tries: nat) returns (starts: seq<nat>)
    requires tries >= 1 && AllDifferent(messages)
    requires Publish(script, at, messages, tries, nothingYet).outcome.Returned?
    ensures AllBreak(script, messages, starts) && |starts| < tries
    ensures var p := Publish(script, at, messages, tries, nothingYet);
            p.added == Leavings(script, messages, starts) + messages <==>
              EachTakenOnce(script, at + p.calls - |messages|, at + p.calls)
  {
    starts := BrokenAttempts(script, at, messages, tries, nothingYet);
    var p := Publish(script, at, messages, tries, nothingYet);
    var last := LastAttempt(script, at, messages, tries, p, starts);
    WholeBehindIff(script, last, at + p.calls, messages, Leavings(script, messages, starts), p.added);
  }

  lemma LastAttempt(script: nat -> Submit, at: nat, messages: seq<Wire>, tries: nat, p: Publication,
                    starts: seq<nat>) returns (last: nat)
    requires Accounted(script, at, messages, tries, nothingYet, p, starts) && p.outcome.Returned?
    ensures AllBreak(script, messages, starts) && |starts| < tries && last + |messages| == at + p.calls
    ensures Passed(script, last, messages) == |messages|
    ensures p.added == Leavings(script, messages, starts) + Arriving(script, last, messages)
  {
    last := at + p.calls - |messages|;
  }

  lemma WholeBehindIff(script: nat -> Submit, start: nat, end: nat, messages: seq<Wire>, before: seq<Wire>,
                       added: seq<Wire>)
    requires AllDifferent(messages) && end == start + |messages| && added == before + Arriving(script, start, messages)
    ensures added == before + messages <==> EachTakenOnce(script, start, end)
  {
    WholeListIff(script, start, messages);
    SameBehind(before, Arriving(script, start, messages), messages);
  }

  lemma SameBehind(a: seq<Wire>, b: seq<Wire>, c: seq<Wire>)
    ensures a + b == a + c <==> b == c
  {
    if a + b == a + c {
      assert (a + b)[|a|..] == b && (a + c)[|a|..] == c;
    }
  }

  /** The broker takes every submit that returns once, and none that raises. */
  ghost predicate Faithful(script: nat -> Submit) {
    forall q: nat :: script(q).copies == if script(q).Returns? then 1 else 0
  }

  lemma {:induction false} FaithfulArrives(script: nat -> Submit, at: nat, messages: seq<Wire>)
    requires Faithful(script) && Passed(script, at, messages) == |messages|
    ensures Arriving(script, at, messages) == messages
    decreases |messages|
  {
    if messages != [] {
      FaithfulArrives(script, at + 1, messages[1..]);
      assert script(at).Returns? && script(at).copies == 1;
      assert Copies(messages[0], 1) == [messages[0]];
      assert [messages[0]] + messages[1..] == messages;
    }
  }

  lemma {:induction false} PassedOfPrefix(script: nat -> Submit, at: nat, messages: seq<Wire>, n: nat)
    requires n <= Passed(script, at, messages)
    ensures Passed(script, at, messages[..n]) == n
    decreases |messages|
  {
    if n > 0 {
      assert messages[..n][1..] == messages[1..][..n - 1];
      PassedOfPrefix(script, at + 1, messages[1..], n - 1);
    }
  }

  /** Then an attempt leaves the messages before the first submit that raises. */
  lemma FaithfulAttempt(script: nat -> Submit, at: nat, messages: seq<Wire>)
    requires Faithful(script)
    ensures AttemptAdds(script, at, messages) == messages[..Passed(script, at, messages)]
  {
    var n := Passed(script, at, messages);
    PassedOfPrefix(script, at, messages, n);
    FaithfulArrives(script, at, messages[..n]);
    if n < |messages| {
      OneMoreArrives(script, at, messages, n);
      assert Copies(messages[n], 0) == [];
      assert messages[..n] + [] == messages[..n];
    }
  }

  /** What broken attempts of a faithful broker leave: the first lengths[i] messages each. */
  function Leftovers(messages: seq<Wire>, lengths: seq<nat>): seq<Wire>
    requires forall i | 0 <= i < |lengths| :: lengths[i] <= |messages|
  {
    if lengths == [] then [] else messages[..lengths[0]] + Leftovers(messages, lengths[1..])
  }

  /** Each attempt broke off before the last message was placed. */
  ghost predicate Broken(messages: seq<Wire>, lengths: seq<nat>) {
    forall i | 0 <= i < |lengths| :: lengths[i] < |messages|
  }

  lemma {:induction false} FaithfulLeavings(script: nat -> Submit, messages: seq<Wire>, starts: seq<nat>)
      returns (lengths: seq<nat>)
    requires Faithful(script) && AllBreak(script, messages, starts)
    ensures |lengths| == |starts| && Broken(messages, lengths)
    ensures Leavings(script, messages, starts) == Leftovers(messages, lengths)
  {
    if starts == [] {
      lengths := [];
    } else {
      FaithfulAttempt(script, starts[0], messages);
      var rest := FaithfulLeavings(script, messages, starts[1..]);
      lengths := [Passed(script, starts[0], messages)] + rest;
      assert lengths[1..] == rest;
    }
  }

  /** With a faithful broker a normal return leaves fewer proper prefixes than tries and then the whole list; an
      error leaves proper prefixes only. */
  lemma PrefixesThenWhole(script: nat -> Submit, at: nat, messages: seq<Wire>, tries: nat) returns (lengths: seq<nat>)
    requires tries >= 1 && Faithful(script)
    ensures Broken(messages, lengths)
    ensures var p := Publish(script, at, messages, tries, nothingYet);
            if p.outcome.Returned? then |lengths| < tries && p.added == Leftovers(messages, lengths) + messages
            else 1 <= |lengths| <= tries && p.added == Leftovers(messages, lengths)
  {
    var starts := PublishingUnderRetries(script, at, messages, tries);
    lengths := FaithfulLeavings(script, messages, starts);
    var p := Publish(script, at, messages, tries, nothingYet);
    if p.outcome.Returned? {
      FaithfulArrives(script, at + p.calls - |messages|, messages);
    }
  }

  // ---------------------------------------------------------------------------
  // Forwarding a message, or the record of its failure
  // ---------------------------------------------------------------------------

  const RETRY_COUNT := 2

  /** What comes before the push: the payloads as JSON, or an error; after an error there may be fragments, which
      the failure record quotes, or none that can be written. */
  datatype Preparation = Ready(messages: seq<Wire>) | Unprepared(quotable: bool)

  /** process_and_forward: rows is the length of the data frame, if the message came with one. An error is answered
      by one failure record; without a data frame, or without fragments to quote, handling the error fails in
      turn, before anything is sent. */
  function Forwarded(script: nat -> Submit, at: nat, prep: Preparation, rows: Option<nat>, record: Wire): Publication {
    var p := if prep.Ready? then Pushed(script, at, prep.messages, RETRY_COUNT)
             else Publication([], 0, Raised(NotPrepared));
    if p.outcome.Returned? then p
    else if rows.None? then p.(outcome := Raised(NoDataFrame))
    else if prep.Unprepared? && !prep.quotable then p.(outcome := Raised(NoFragments))
    else
      var how := script(at + p.calls);
      Publication(p.added + Copies(record, how.copies), p.calls + 1,
                  if how.Returns? then Returned else Raised(SubmitFailed(how)))
  }

  method ProcessAndForward(client: BrokerClient, prep: Preparation, rows: Option<nat>, record: Wire)
      returns (outcome: Outcome)
    modifies client
    ensures var p := Forwarded(client.script, old(client.calls), prep, rows, record);
            outcome == p.outcome && client.channel == old(client.channel) + p.added
            && client.calls == old(client.calls) + p.calls
  {
    if prep.Ready? {
      outcome := PushToBroker(client, prep.messages, RETRY_COUNT);
    } else {
      outcome := Raised(NotPrepared);
    }
    if outcome.Raised? {
      outcome := HandleFailure(client, prep.Ready? || prep.quotable, rows, record);
    }
  }

  method HandleFailure(client: BrokerClient, quotable: bool, rows: Option<nat>, record: Wire) returns (outcome: Outcome)
    modifies client
    ensures rows.None? || !quotable ==>
              client.channel == old(client.channel) && client.calls == old(client.calls)
              && outcome == Raised(if rows.None? then NoDataFrame else NoFragments)
    ensures rows.Some? && quotable ==>
              var how := client.script(old(client.calls));
              client.channel == old(client.channel) + Copies(record, how.copies)
              && client.calls == old(client.calls) + 1
              && outcome == if how.Returns? then Returned else Raised(SubmitFailed(how))
  {
    if rows.None? {
      return Raised(NoDataFrame);
    }
    if !quotable {
      return Raised(NoFragments);
    }
    var how := client.SubmitMessage(record);
    outcome := if how.Returns? then Returned else Raised(SubmitFailed(how));
  }

  /** For a message with a data frame whose push fails, and whose last submit is taken once, a faithful broker's
      channel gets nothing but proper prefixes and then exactly one failure record; for an oversized payload it
      gets the record alone. */
  lemma FailureIsRecorded(script: nat -> Submit, at: nat, messages: seq<Wire>, rows: Option<nat>, record: Wire)
      returns (lengths: seq<nat>)
    requires Faithful(script) && rows.Some? && Pushed(script, at, messages, RETRY_COUNT).outcome.Raised?
    requires script(at + Pushed(script, at, messages, RETRY_COUNT).calls).Returns?
    ensures Broken(messages, lengths) && |lengths| <= RETRY_COUNT
    ensures Forwarded(script, at, Ready(messages), rows, record).outcome.Returned?
    ensures Forwarded(script, at, Ready(messages), rows, record).added == Leftovers(messages, lengths) + [record]
    ensures (exists i :: 0 <= i < |messages| && TooLarge(messages[i])) ==> lengths == []
  {
    assert Copies(record, 1) == [record];
    if exists i :: 0 <= i < |messages| && TooLarge(messages[i]) {
      lengths := [];
    } else {
      lengths := PrefixesThenWhole(script, at, messages, RETRY_COUNT);
    }
  }

  /** When a message leaves neither its result nor a record, for every broker: a failed preparation or push is
      answered by as many records as the broker takes of the one submit that is made for it, and that submit is
      made if and only if the message came with a data frame and its fragments can be quoted. */
  lemma RecordNeedsDataFrame(script: nat -> Submit, at: nat, prep: Preparation, rows: Option<nat>, record: Wire)
    requires prep.Ready? ==> Pushed(script, at, prep.messages, RETRY_COUNT).outcome.Raised?
    ensures var p := if prep.Ready? then Pushed(script, at, prep.messages, RETRY_COUNT)
                     else Publication([], 0, Raised(NotPrepared));
            var f := Forwarded(script, at, prep, rows, record);
            var submits := rows.Some? && (prep.Ready? || prep.quotable);
            && (f.calls == p.calls + 1 <==> submits)
            && f.added == p.added + Copies(record, if submits then script(at + p.calls).copies else 0)
            && (f.added != p.added <==> submits && script(at + p.calls).copies > 0)
            && (f.outcome.Returned? <==> submits && script(at + p.calls).Returns?)
  {
    var p := if prep.Ready? then Pushed(script, at, prep.messages, RETRY_COUNT)
             else Publication([], 0, Raised(NotPrepared));
    var k := if rows.Some? && (prep.Ready? || prep.quotable) then script(at + p.calls).copies else 0;
    assert Copies(record, 0) == [] && p.added + [] == p.added;
    assert |p.added + Copies(record, k)| == |p.added| + k;
  }

  // ---------------------------------------------------------------------------
  // Fetching after retries
  // ---------------------------------------------------------------------------

  /** A fragment of the result other than the last one. */
  predicate NotLast(w: Wire, count: nat) {
    w.Part? && w.payload.count == count && w.payload.fragment < count - 1 && w.payload.data.Some?
  }

  lemma {:induction false} LeftoversLackLast(messages: seq<Wire>, lengths: seq<nat>)
    requires Fragments(messages) && Broken(messages, lengths)
    ensures forall i | 0 <= i < |Leftovers(messages, lengths)| :: NotLast(Leftovers(messages, lengths)[i], |messages|)
  {
    if lengths != [] {
      LeftoversLackLast(messages, lengths[1..]);
    }
  }

  /** For every script whose push returns, and whatever is published later: the first fetch gives the result if
      and only if the channel starts with its fragments. With a faithful broker that is so if and only if no
      broken attempt has left anything; otherwise the fetch gives a result all the same, which lacks the last
      fragment. */
  lemma RetryLeftoversSpoilFetch(script: nat -> Submit, at: nat, messages: seq<Wire>, tries: nat, later: seq<Wire>)
    requires Fragments(messages) && |messages| > 1 && tries >= 1
    requires Publish(script, at, messages, tries, nothingYet).outcome.Returned?
    ensures var added := Publish(script, at, messages, tries, nothingYet).added;
            var fetched := Fetch(added + later, [], None);
            && (fetched.Got? && fetched.answer == AnswerOf(messages) <==> Carries(added + later, messages))
            && (Faithful(script) ==> (Carries(added + later, messages) <==> added == messages))
            && (Faithful(script) && added != messages ==>
                  fetched.Got? && fetched.answer.Combined? && |fetched.answer.parts| == |messages|
                  && forall part | part in fetched.answer.parts :: part.fragment != |messages| - 1)
  {
    var added := Publish(script, at, messages, tries, nothingYet).added;
    FetchRestoresIff(added + later, messages);
    if Faithful(script) {
      var lengths := PrefixesThenWhole(script, at, messages, tries);
      var log := Leftovers(messages, lengths);
      LeftoversLackLast(messages, lengths);
      if log == [] {
        assert added == messages;
        StartsWithItself(messages, later);
      } else {
        assert |added| > |messages|;
        Regroup(log, messages, later);
        MissesLast(log, messages, later);
      }
    }
  }

  lemma StartsWithItself(messages: seq<Wire>, later: seq<Wire>)
    requires Fragments(messages)
    ensures Carries(messages + later, messages)
  {
    assert (messages + later)[..|messages|] == messages;
  }

  lemma NoneLast(log: seq<Wire>, messages: seq<Wire>, later: seq<Wire>)
    requires Fragments(messages) && |messages| > 1 && log != []
    requires forall i | 0 <= i < |log| :: NotLast(log[i], |messages|)
    ensures forall i | 0 <= i < |messages| :: NotLast((log + (messages + later))[i], |messages|)
  {
    var channel := log + (messages + later);
    forall i | 0 <= i < |messages| ensures NotLast(channel[i], |messages|) {
      assert i >= |log| ==> channel[i] == messages[i - |log|];
    }
  }

  lemma FetchedWithoutLast(channel: seq<Wire>, n: nat)
    requires 1 < n <= |channel| && forall i | 0 <= i < n :: NotLast(channel[i], n)
    ensures var fetched := Fetch(channel, [], None);
            && fetched.Got? && fetched.answer.Combined? && |fetched.answer.parts| == n
            && forall part | part in fetched.answer.parts :: part.fragment != n - 1
  {
    var got := PayloadsOf(channel[..n]);
    FetchCollects(channel, [], n);
    assert [] + got == got;
    SortMembers(got);
    forall part | part in got ensures part.fragment != n - 1 {
    }
  }

  lemma CarriedHasLast(channel: seq<Wire>, messages: seq<Wire>)
    requires Fragments(messages) && |messages| > 1 && Carries(channel, messages)
    ensures exists i :: 0 <= i < |messages| && !NotLast(channel[i], |messages|)
  {
    var got, sent := PayloadsOf(channel[..|messages|]), PayloadsOf(messages);
    assert sent[|messages| - 1] in multiset(sent);
    assert sent[|messages| - 1] in multiset(got);
    var i :| 0 <= i < |got| && got[i] == sent[|messages| - 1];
    assert !NotLast(channel[i], |messages|);
  }

  lemma MissesLast(log: seq<Wire>, messages: seq<Wire>, later: seq<Wire>)
    requires Fragments(messages) && |messages| > 1 && log != []
    requires forall i | 0 <= i < |log| :: NotLast(log[i], |messages|)
    ensures !Carries(log + (messages + later), messages)
    ensures var fetched := Fetch(log + (messages + later), [], None);
            && fetched.Got? && fetched.answer.Combined? && |fetched.answer.parts| == |messages|
            && forall part | part in fetched.answer.parts :: part.fragment != |messages| - 1
  {
    NoneLast(log, messages, later);
    FetchedWithoutLast(log + (messages + later), |messages|);
    if Carries(log + (messages + later), messages) {
      CarriedHasLast(log + (messages + later), messages);
    }
  }

  // ---------------------------------------------------------------------------
  // Examples
  // ---------------------------------------------------------------------------

  function TwoFragments(): (messages: seq<Wire>)
    ensures Fragments(messages) && |messages| == 2 && AllDifferent(messages)
  {
    [Part(Payload(false, Some([]), 0, 2, true), ""), Part(Payload(false, Some([]), 1, 2, false), "")]
  }

  /** A submit that raises between two fragments, with a broker that is faithful otherwise. */
  function SecondRaises(): nat -> Submit {
    (q: nat) => if q == 1 then RaisesValueError(0) else Returns(1)
  }

  /** The retry succeeds, and the fetch gives the first fragment twice for the result. */
  lemma RetrySpoilsFetch(later: seq<Wire>)
    ensures Faithful(SecondRaises())
    ensures var m := TwoFragments();
            var p := Publish(SecondRaises(), 0, m, 2, nothingYet);
            && p.outcome.Returned? && p.added == [m[0], m[0], m[1]]
            && Fetch(p.added + later, [], None) == Got(Combined([m[0].payload, m[0].payload]), [m[1]] + later)
  {
    SecondRaisesPublishes();
    FirstTwiceFetched(later);
  }

  lemma SecondRaisesPublishes()
    ensures var m := TwoFragments();
            var p := Publish(SecondRaises(), 0, m, 2, nothingYet);
            p.outcome.Returned? && p.added == [m[0], m[0], m[1]]
  {
    var m, script := TwoFragments(), SecondRaises();
    assert m[1..][1..] == [];
    assert Passed(script, 0, m) == 1;
    FaithfulAttempt(script, 0, m);
    assert Passed(script, 2, m) == 2;
    FaithfulAttempt(script, 2, m);
    assert m[..1] == [m[0]] && m[..2] == m;
    var first := Publication([] + [m[0]], 2, Raised(SubmitFailed(RaisesValueError(0))));
    assert Publish(script, 0, m, 2, nothingYet) == Publish(script, 2, m, 1, first);
  }

  lemma FirstTwiceFetched(later: seq<Wire>)
    ensures var m := TwoFragments();
            Fetch([m[0], m[0], m[1]] + later, [], None) == Got(Combined([m[0].payload, m[0].payload]), [m[1]] + later)
  {
    var m := TwoFragments();
    assert [m[0], m[0], m[1]] + later == [m[0], m[0]] + ([m[1]] + later);
    FetchTwo(m[0], m[0], [m[1]] + later);
  }

  lemma FetchTwo(a: Wire, b: Wire, later: seq<Wire>)
    requires a.Part? && a.payload.count == 2 && a.payload.data.Some?
    requires b.Part? && b.payload.count == 2 && b.payload.data.Some? && a.payload.fragment <= b.payload.fragment
    ensures Fetch([a, b] + later, [], None) == Got(Combined([a.payload, b.payload]), later)
  {
    FetchCollects([a, b] + later, [], 2);
    assert PayloadsOf(([a, b] + later)[..2]) == [a.payload, b.payload];
    assert [] + [a.payload, b.payload] == [a.payload, b.payload];
    SortedStays([a.payload, b.payload]);
    assert ([a, b] + later)[2..] == later;
  }

  /** A client that answers for a broker which has refused the first fragment. */
  function FirstRefused(): nat -> Submit {
    (q: nat) => if q == 0 then Returns(0) else Returns(1)
  }

  /** The push returns, no record is sent, and a fragment is missing: the fetch waits for it and then fails. */
  lemma RefusalLosesFragment(rows: Option<nat>, record: Wire)
    ensures var m := TwoFragments();
            var p := Forwarded(FirstRefused(), 0, Ready(m), rows, record);
            p.outcome.Returned? && p.calls == 2 && p.added == [m[1]] && Fetch(p.added, [], None) == Broke([])
  {
    var m, script := TwoFragments(), FirstRefused();
    assert m[1..][1..] == [];
    assert Passed(script, 0, m) == 2;
    assert m[..2] == m;
    assert Arriving(script, 1, m[1..]) == Copies(m[1], 1) + Arriving(script, 2, m[1..][1..]);
    assert Arriving(script, 0, m) == [m[1]];
    assert Publish(script, 0, m, 2, nothingYet) == Publication([] + [m[1]], 2, Returned);
    assert !TooLarge(m[0]) && !TooLarge(m[1]);
    assert Fetch([m[1]], [], None) == Fetch([m[1]][1..], [m[1].payload], None);
  }

  /** A message that came failed has no data frame: when its push fails, the channel gets nothing at all. */
  lemma NoRecordWithoutDataFrame(record: Wire)
    ensures var message := Part(Payload(true, None, 0, 1, true), "");
            var p := Forwarded((q: nat) => RaisesOther(0), 0, Ready([message]), None, record);
            p.added == [] && p.outcome == Raised(NoDataFrame)
  {
    var message := Part(Payload(true, None, 0, 1, true), "");
    var script := (q: nat) => RaisesOther(0);
    assert [message][..1] == [message];
    assert Arriving(script, 0, [message]) == Copies(message, 0) + Arriving(script, 1, [message][1..]);
    assert Publish(script, 0, [message], 2, nothingYet)
        == Publication([] + [], 1, Raised(SubmitFailed(RaisesOther(0))));
    assert !TooLarge(message);
  }
}
