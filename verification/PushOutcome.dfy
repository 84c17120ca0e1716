// How a push ends, said of the texts it sends, of the retry count it is given and of what the submits come to.

module PushOutcome {
  import opened Wrappers
  import opened Fragmentation
  import opened Fetching
  import opened Publishing

  /** The first submits raise ValueErrors, after the broker has taken the message or not; all others return, with the
      broker taking them once. */
  function Recovering(broken: nat, taken: bool): nat -> Submit {
    (q: nat) => if q < broken then RaisesValueError(if taken then 1 else 0) else Returns(1)
  }

  lemma {:induction false} AllTakenOnce(script: nat -> Submit, at: nat, messages: seq<Wire>)
    requires forall q: nat | at <= q < at + |messages| :: script(q) == Returns(1)
    ensures Passed(script, at, messages) == |messages| && Arriving(script, at, messages) == messages
    decreases |messages|
  {
    if messages != [] {
      AllTakenOnce(script, at + 1, messages[1..]);
      assert Copies(messages[0], 1) == [messages[0]];
      assert [messages[0]] + messages[1..] == messages;
    }
  }

  /** An attempt with a broker that takes everything. */
  lemma PublishAtOnce(script: nat -> Submit, at: nat, messages: seq<Wire>, tries: nat, done: Publication)
    requires tries > 0 && forall q: nat | at <= q < at + |messages| :: script(q) == Returns(1)
    ensures Publish(script, at, messages, tries, done)
         == Publication(done.added + messages, done.calls + |messages|, Returned)
  {
    AllTakenOnce(script, at, messages);
    assert messages[..|messages|] == messages;
  }

  /** What so many broken submits of the first message leave. */
  function Remains(message: Wire, broken: nat, taken: bool): seq<Wire> {
    if taken then seq(broken, _ => message) else []
  }

  lemma BreaksAtOnce(script: nat -> Submit, at: nat, messages: seq<Wire>, tries: nat, done: Publication, taken: bool)
    requires tries > 0 && messages != [] && script(at) == RaisesValueError(if taken then 1 else 0)
    ensures var broken := Publication(done.added + Remains(messages[0], 1, taken), done.calls + 1,
                                      Raised(SubmitFailed(script(at))));
            Publish(script, at, messages, tries, done)
            == if tries == 1 then broken else Publish(script, at + 1, messages, tries - 1, broken)
  {
    assert Passed(script, at, messages) == 0;
    assert messages[..1] == [messages[0]];
    assert Arriving(script, at, [messages[0]])
        == Copies(messages[0], script(at).copies) + Arriving(script, at + 1, [messages[0]][1..]);
    assert AttemptAdds(script, at, messages) == Remains(messages[0], 1, taken);
  }

  lemma RemainsMore(before: seq<Wire>, message: Wire, broken: nat, taken: bool, after: seq<Wire>)
    ensures before + Remains(message, 1, taken) + Remains(message, broken, taken) + after
         == before + Remains(message, broken + 1, taken) + after
  {
    assert Remains(message, 1, taken) + Remains(message, broken, taken) == Remains(message, broken + 1, taken);
    assert before + Remains(message, 1, taken) + Remains(message, broken, taken)
        == before + (Remains(message, 1, taken) + Remains(message, broken, taken));
  }

  lemma {:induction false} PublishRecovers(broken: nat, taken: bool, at: nat, messages: seq<Wire>, tries: nat,
                                           done: Publication)
    requires messages != [] && tries > 0 && at <= broken
    ensures Publish(Recovering(broken, taken), at, messages, tries, done)
         == if broken - at < tries
            then Publication(done.added + Remains(messages[0], broken - at, taken) + messages,
                             done.calls + (broken - at) + |messages|, Returned)
            else Publication(done.added + Remains(messages[0], tries, taken) + [], done.calls + tries,
                             Raised(SubmitFailed(RaisesValueError(if taken then 1 else 0))))
    decreases tries
  {
    var script := Recovering(broken, taken);
    if at == broken {
      PublishAtOnce(script, at, messages, tries, done);
      assert done.added + Remains(messages[0], 0, taken) == done.added;
    } else {
      BreaksAtOnce(script, at, messages, tries, done, taken);
      if tries > 1 {
        var once := Publication(done.added + Remains(messages[0], 1, taken), done.calls + 1,
                                Raised(SubmitFailed(script(at))));
        PublishRecovers(broken, taken, at + 1, messages, tries - 1, once);
        RemainsMore(done.added, messages[0], broken - at - 1, taken, messages);
        RemainsMore(done.added, messages[0], tries - 1, taken, []);
      }
    }
  }

  /** A positive retry count is the number of attempts: with a broker that recovers after so many broken submits the
      push puts the whole list on the channel if they are fewer than that, and otherwise ends with the ValueError
      after as many submits; the broken ones have left what the broker took before they raised. With any other count
      nothing is tried, and the push returns. */
  lemma TriesAreRetryCount(broken: nat, taken: bool, messages: seq<Wire>, retryCount: int)
    requires messages != [] && forall i | 0 <= i < |messages| :: !Huge(messages[i])
    ensures Pushed(Recovering(broken, taken), 0, messages, retryCount)
         == if retryCount <= 0 then Publication([], 0, Returned)
            else if broken < retryCount
            then Publication(Remains(messages[0], broken, taken) + messages, broken + |messages|, Returned)
            else Publication(Remains(messages[0], retryCount, taken), retryCount,
                             Raised(SubmitFailed(RaisesValueError(if taken then 1 else 0))))
  {
    assert forall i | 0 <= i < |messages| :: !TooLarge(messages[i]) by {
      forall i | 0 <= i < |messages| ensures !TooLarge(messages[i]) {
        assert !Huge(messages[i]);
      }
    }
    if retryCount > 0 {
      PublishRecovers(broken, taken, 0, messages, retryCount, nothingYet);
      assert [] + Remains(messages[0], retryCount, taken) + [] == Remains(messages[0], retryCount, taken);
      assert [] + Remains(messages[0], broken, taken) == Remains(messages[0], broken, taken);
    }
  }

  /** The sink pushes twice at most: after one broken submit the result is on the channel; after two it is not, and
      the record of the failure is. */
  lemma ForwardedAfter(broken: nat, messages: seq<Wire>, rows: nat, record: Wire)
    requires messages != [] && broken <= 2 && forall i | 0 <= i < |messages| :: !Huge(messages[i])
    ensures Forwarded(Recovering(broken, false), 0, Ready(messages), Some(rows), record)
         == if broken < 2 then Publication(messages, broken + |messages|, Returned)
            else Publication([record], 3, Returned)
  {
    TriesAreRetryCount(broken, false, messages, 2);
    assert [] + Copies(record, 1) == [record] && [] + messages == messages;
  }

  // ---------------------------------------------------------------------------
  // What is prepared is sent
  // ---------------------------------------------------------------------------

  /** The messages of payloads: their JSON texts. */
  function MessagesOf(payloads: seq<Payload>, envelope: Payload -> Envelope): seq<Wire> {
    seq(|payloads|, i requires 0 <= i < |payloads| => Part(payloads[i], PayloadText(envelope, payloads[i])))
  }

  /** A result whose records fit a fragment one by one, with texts around the data of at most 2^27 bytes, and a broker
      that takes every submit: the push returns, and the channel gains exactly the payloads' messages. */
  lemma PreparedIsSent(script: nat -> Submit, at: nat, payloads: seq<Payload>, data: seq<Record>,
                       envelope: Payload -> Envelope, retryCount: int)
    requires forall i | 0 <= i < |payloads| :: payloads[i].data.Some?
    requires Flatten(DataOf(payloads)) == data && EachFits(data, 0x800_0000)
    requires if |DumpList(data)| + 49 <= 0x800_0000 then |payloads| == 1
             else GreedySplit(DataOf(payloads), data, 0x800_0000)
    requires forall i | 0 <= i < |payloads| ::
               |envelope(payloads[i]).before| + |envelope(payloads[i]).after| <= 0x800_0000
    requires retryCount > 0 && forall q: nat | at <= q < at + |payloads| :: script(q) == Returns(1)
    ensures Pushed(script, at, MessagesOf(payloads, envelope), retryCount)
         == Publication(MessagesOf(payloads, envelope), |payloads|, Returned)
  {
    PayloadsAreSendable(payloads, data, envelope);
    SentAtOnce(script, at, MessagesOf(payloads, envelope), retryCount);
  }

  lemma SentAtOnce(script: nat -> Submit, at: nat, messages: seq<Wire>, retryCount: int)
    requires forall i | 0 <= i < |messages| :: messages[i].Part? && SizeOf(messages[i].text) <= BROKER_LIMIT
    requires retryCount > 0 && forall q: nat | at <= q < at + |messages| :: script(q) == Returns(1)
    ensures Pushed(script, at, messages, retryCount) == Publication(messages, |messages|, Returned)
  {
    assert forall i | 0 <= i < |messages| :: !TooLarge(messages[i]);
    PublishAtOnce(script, at, messages, retryCount, nothingYet);
    assert [] + messages == messages;
  }
}
