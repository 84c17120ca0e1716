// Fetching a result from the channel it was published on: fragments are collected until there are as many as the
// last of them says.

module Fetching {
  import opened Wrappers
  import opened Fragmentation

  /** A message on a response channel: a fragment of a result, the record of a failure, or something that is no
      JSON. */
  datatype Wire = Part(payload: Payload, text: string) | FailureRecord(text: string) | Garbled

  /** What a fetch gives its caller: a message as it is, or the fragments put together. */
  datatype Answer = Single(message: Wire) | Combined(parts: seq<Payload>)

  /** How a fetch ends, and what it leaves on the channel. When it breaks, what it has popped is gone. */
  datatype Fetched = Got(answer: Answer, rest: seq<Wire>) | TimedOut | Broke(rest: seq<Wire>)

  function Insert(p: Payload, sorted: seq<Payload>): seq<Payload> {
    if sorted == [] || p.fragment < sorted[0].fragment then [p] + sorted
    else [sorted[0]] + Insert(p, sorted[1..])
  }

  /** A stable sort by fragment number. */
  function SortByFragment(ps: seq<Payload>): seq<Payload> {
    if ps == [] then [] else Insert(ps[|ps| - 1], SortByFragment(ps[..|ps| - 1]))
  }

  /** A message without a fragment count counts as a single one. */
  predicate IsSingle(w: Wire) {
    w.FailureRecord? || (w.Part? && w.payload.count == 1)
  }

  /** Fragments without data cannot be put together. */
  predicate Combinable(parts: seq<Payload>) {
    forall i | 0 <= i < |parts| :: parts[i].data.Some?
  }

  /** A fetch from a channel, with the fragments collected so far. The channel holds what arrives while the fetch
      waits; when it runs out, an empty collection is a timeout and any other an error. If stop is given, the
      connection fails for good after so many messages have been popped. */
  function Fetch(channel: seq<Wire>, collected: seq<Payload>, stop: Option<nat>): Fetched
    decreases |channel|
  {
    if stop == Some(|collected|) then Broke(channel)
    else if channel == [] then (if collected == [] then TimedOut else Broke([]))
    else if channel[0].Garbled? then Broke(channel[1..])
    else if IsSingle(channel[0]) then Got(Single(channel[0]), channel[1..])
    else
      var collected' := collected + [channel[0].payload];
      if |collected'| != channel[0].payload.count then Fetch(channel[1..], collected', stop)
      else if Combinable(collected') then Got(Combined(SortByFragment(collected')), channel[1..])
      else Broke(channel[1..])
  }

  /** A response channel of the broker. */
  class ResponseQueue {
    var channel: seq<Wire>

    constructor ()
      ensures channel == []
    {
      channel := [];
    }

    method Pop() returns (w: Option<Wire>)
      modifies this
      ensures w == if old(channel) == [] then None else Some(old(channel)[0])
      ensures channel == if old(channel) == [] then [] else old(channel)[1..]
    {
      if channel == [] {
        return None;
      }
      w := Some(channel[0]);
      channel := channel[1..];
    }

    method FetchMessage(stop: Option<nat>) returns (fetched: Fetched)
      modifies this
      ensures fetched == Fetch(old(channel), [], stop)
      ensures fetched.TimedOut? ==> channel == old(channel) == []
      ensures !fetched.TimedOut? ==> channel == fetched.rest
    {
      var collected: seq<Payload> := [];
      while true
        invariant Fetch(old(channel), [], stop) == Fetch(channel, collected, stop)
        invariant collected == [] ==> channel == old(channel)
        decreases |channel|
      {
        if stop == Some(|collected|) {
          return Broke(channel);
        }
        var w := Pop();
        if w.None? {
          return if collected == [] then TimedOut else Broke(channel);
        }
        if w.value.Garbled? {
          return Broke(channel);
        }
        if IsSingle(w.value) {
          return Got(Single(w.value), channel);
        }
        collected := collected + [w.value.payload];
        if |collected| == w.value.payload.count {
          return if Combinable(collected) then Got(Combined(SortByFragment(collected)), channel) else Broke(channel);
        }
      }
    }
  }

  // ---------------------------------------------------------------------------
  // What a fetch restores
  // ---------------------------------------------------------------------------

  function PayloadsOf(messages: seq<Wire>): seq<Payload>
    requires forall i | 0 <= i < |messages| :: messages[i].Part?
  {
    seq(|messages|, i requires 0 <= i < |messages| => messages[i].payload)
  }

  /** The messages are the fragments of one result, in order. */
  ghost predicate Fragments(messages: seq<Wire>) {
    forall i | 0 <= i < |messages| ::
      messages[i].Part? && messages[i].payload.fragment == i && messages[i].payload.count == |messages|
      && messages[i].payload.data.Some?
  }

  lemma {:induction false} InsertLast(p: Payload, sorted: seq<Payload>)
    requires forall i | 0 <= i < |sorted| :: sorted[i].fragment <= p.fragment
    ensures Insert(p, sorted) == sorted + [p]
  {
    if sorted != [] {
      InsertLast(p, sorted[1..]);
    }
  }

  lemma {:induction false} SortedStays(ps: seq<Payload>)
    requires forall i, j | 0 <= i < j < |ps| :: ps[i].fragment <= ps[j].fragment
    ensures SortByFragment(ps) == ps
  {
    if ps != [] {
      SortedStays(ps[..|ps| - 1]);
      InsertLast(ps[|ps| - 1], ps[..|ps| - 1]);
    }
  }

  lemma {:induction false} InsertKeeps(p: Payload, sorted: seq<Payload>)
    ensures multiset(Insert(p, sorted)) == multiset(sorted) + multiset{p}
  {
    if sorted == [] || p.fragment < sorted[0].fragment {
    } else {
      InsertKeeps(p, sorted[1..]);
      assert sorted == [sorted[0]] + sorted[1..];
    }
  }

  lemma {:induction false} SortKeeps(ps: seq<Payload>)
    ensures multiset(SortByFragment(ps)) == multiset(ps)
  {
    if ps != [] {
      SortKeeps(ps[..|ps| - 1]);
      InsertKeeps(ps[|ps| - 1], SortByFragment(ps[..|ps| - 1]));
      assert ps == ps[..|ps| - 1] + [ps[|ps| - 1]];
    }
  }

  lemma SortMembers(ps: seq<Payload>)
    ensures |SortByFragment(ps)| == |ps|
    ensures forall p :: p in SortByFragment(ps) ==> p in ps
  {
    SortKeeps(ps);
    assert |SortByFragment(ps)| == |multiset(SortByFragment(ps))| == |multiset(ps)|;
    forall p | p in SortByFragment(ps) ensures p in ps {
      assert p in multiset(SortByFragment(ps));
      assert p in multiset(ps);
    }
  }

  /** What is published for a message in one go: the fragments of its result, or a single message, as for a failed
      one or for the record of a failure. */
  ghost predicate IsResult(messages: seq<Wire>) {
    messages != [] && (Fragments(messages) || (|messages| == 1 && IsSingle(messages[0])))
  }

  /** What a fetch of this result should give. */
  function AnswerOf(messages: seq<Wire>): Answer
    requires IsResult(messages)
  {
    if |messages| == 1 then Single(messages[0]) else Combined(PayloadsOf(messages))
  }

  /** The next messages are fragments of a result with that many, and they have data. */
  ghost predicate NextAreParts(channel: seq<Wire>, n: nat, count: nat) {
    n <= |channel| && forall i | 0 <= i < n ::
      channel[i].Part? && channel[i].payload.count == count && channel[i].payload.data.Some?
  }

  lemma OneMoreCollected(channel: seq<Wire>, collected: seq<Payload>, n: nat)
    requires n < |channel| && forall i | 0 <= i <= n :: channel[i].Part?
    ensures forall i | 0 <= i < n :: channel[1..][i].Part?
    ensures collected + [channel[0].payload] + PayloadsOf(channel[1..][..n]) == collected + PayloadsOf(channel[..n + 1])
    ensures channel[1..][n..] == channel[n + 1..]
  {
    assert [channel[0].payload] + PayloadsOf(channel[1..][..n]) == PayloadsOf(channel[..n + 1]);
  }

  /** A fetch collects as many fragments of one count as the count says, whatever comes behind them. */
  lemma {:induction false} FetchCollects(channel: seq<Wire>, collected: seq<Payload>, count: nat)
    requires |collected| < count && count > 1 && Combinable(collected)
    requires NextAreParts(channel, count - |collected|, count)
    ensures var n := count - |collected|;
            Fetch(channel, collected, None)
            == Got(Combined(SortByFragment(collected + PayloadsOf(channel[..n]))), channel[n..])
    decreases |channel|
  {
    var collected' := collected + [channel[0].payload];
    if |collected'| == count {
      assert PayloadsOf(channel[..1]) == [channel[0].payload];
    } else {
      FetchCollects(channel[1..], collected', count);
      OneMoreCollected(channel, collected, count - |collected'|);
    }
  }

  /** Round trip: what was published in one go is fetched as it was, in order, whatever was
      published behind it, and that is left alone. */
  lemma FetchRestores(messages: seq<Wire>, later: seq<Wire>)
    requires IsResult(messages)
    ensures Fetch(messages + later, [], None) == Got(AnswerOf(messages), later)
  {
    var n, channel := |messages|, messages + later;
    assert channel[n..] == later;
    if n > 1 {
      FetchCollects(channel, [], n);
      assert channel[..n] == messages;
      assert [] + PayloadsOf(messages) == PayloadsOf(messages);
      SortedStays(PayloadsOf(messages));
    }
  }

  // ---------------------------------------------------------------------------
  // When a fetch restores
  // ---------------------------------------------------------------------------

  ghost predicate Ordered(ps: seq<Payload>) {
    forall i, j | 0 <= i < j < |ps| :: ps[i].fragment <= ps[j].fragment
  }

  lemma {:induction false} InsertOrders(p: Payload, sorted: seq<Payload>)
    requires Ordered(sorted)
    ensures Ordered(Insert(p, sorted))
  {
    if sorted != [] && p.fragment >= sorted[0].fragment {
      InsertOrders(p, sorted[1..]);
      InsertKeeps(p, sorted[1..]);
      var rest := Insert(p, sorted[1..]);
      forall i | 0 <= i < |rest| ensures sorted[0].fragment <= rest[i].fragment {
        assert rest[i] in multiset(rest);
        assert rest[i] == p || rest[i] in sorted[1..];
      }
    }
  }

  lemma {:induction false} SortOrders(ps: seq<Payload>)
    ensures Ordered(SortByFragment(ps))
  {
    if ps != [] {
      SortOrders(ps[..|ps| - 1]);
      InsertOrders(ps[|ps| - 1], SortByFragment(ps[..|ps| - 1]));
    }
  }

  ghost predicate StrictlyOrdered(ps: seq<Payload>) {
    forall i, j | 0 <= i < j < |ps| :: ps[i].fragment < ps[j].fragment
  }

  lemma SameFirst(a: seq<Payload>, b: seq<Payload>)
    requires Ordered(a) && StrictlyOrdered(b) && multiset(a) == multiset(b) && a != [] && b != []
    ensures a[0] == b[0]
  {
    assert a[0] in multiset(b) && b[0] in multiset(a);
    var i :| 0 <= i < |b| && b[i] == a[0];
    var j :| 0 <= j < |a| && a[j] == b[0];
  }

  lemma WithoutFirst(a: seq<Payload>)
    requires a != []
    ensures multiset(a[1..]) == multiset(a) - multiset{a[0]}
  {
    assert a == [a[0]] + a[1..];
  }

  /** Distinct fragment numbers have one order only. */
  lemma {:induction false} OneOrder(a: seq<Payload>, b: seq<Payload>)
    requires Ordered(a) && StrictlyOrdered(b) && multiset(a) == multiset(b)
    ensures a == b
  {
    assert |a| == |multiset(a)| == |multiset(b)| == |b|;
    if a != [] {
      SameFirst(a, b);
      WithoutFirst(a);
      WithoutFirst(b);
      OneOrder(a[1..], b[1..]);
    }
  }

  /** The channel starts with the fragments of the result, each once, in whatever order. */
  ghost predicate Carries(channel: seq<Wire>, messages: seq<Wire>)
    requires Fragments(messages)
  {
    && |messages| <= |channel|
    && (forall i | 0 <= i < |messages| :: channel[i].Part?)
    && multiset(PayloadsOf(channel[..|messages|])) == multiset(PayloadsOf(messages))
  }

  /** What a fetch puts together are the first messages of the channel. */
  lemma {:induction false} FetchGives(channel: seq<Wire>, collected: seq<Payload>, stop: Option<nat>) returns (k: nat)
    requires Fetch(channel, collected, stop).Got? && Fetch(channel, collected, stop).answer.Combined?
    ensures 0 < k <= |channel| && Fetch(channel, collected, stop).rest == channel[k..]
    ensures forall i | 0 <= i < k :: channel[i].Part? && channel[i].payload.count != 1
    ensures Fetch(channel, collected, stop).answer.parts == SortByFragment(collected + PayloadsOf(channel[..k]))
    decreases |channel|
  {
    var collected' := collected + [channel[0].payload];
    if |collected'| == channel[0].payload.count {
      k := 1;
      assert PayloadsOf(channel[..1]) == [channel[0].payload];
    } else {
      var m := FetchGives(channel[1..], collected', stop);
      k := m + 1;
      assert forall i | 0 < i < k :: channel[i] == channel[1..][i - 1];
      assert collected' + PayloadsOf(channel[1..][..m]) == collected + PayloadsOf(channel[..k]);
    }
  }

  /** What is put together has data in every part, is as long as the last part popped says, and is in the order of the
      fragments' numbers. */
  lemma {:induction false} CombinedIs(channel: seq<Wire>, collected: seq<Payload>, stop: Option<nat>)
    requires Fetch(channel, collected, stop).Got? && Fetch(channel, collected, stop).answer.Combined?
    ensures var parts := Fetch(channel, collected, stop).answer.parts;
            && (forall i | 0 <= i < |parts| :: parts[i].data.Some?)
            && (forall i, j | 0 <= i < j < |parts| :: parts[i].fragment <= parts[j].fragment)
            && exists k :: 0 <= k < |channel| && channel[k].Part? && channel[k].payload.count == |parts|
                           && Fetch(channel, collected, stop).rest == channel[k + 1..]
    decreases |channel|
  {
    var collected' := collected + [channel[0].payload];
    if |collected'| == channel[0].payload.count {
      var parts := SortByFragment(collected');
      SortMembers(collected');
      SortOrders(collected');
      forall i | 0 <= i < |parts| ensures parts[i].data.Some? {
        assert parts[i] in collected';
      }
      assert channel[0].payload.count == |parts| && channel[1..] == channel[0 + 1..];
    } else {
      CombinedIs(channel[1..], collected', stop);
      var parts := Fetch(channel, collected, stop).answer.parts;
      var k :| 0 <= k < |channel[1..]| && channel[1..][k].Part? && channel[1..][k].payload.count == |parts|
               && Fetch(channel, collected, stop).rest == channel[1..][k + 1..];
      assert channel[k + 1] == channel[1..][k];
      assert channel[1..][k + 1..] == channel[k + 2..];
    }
  }

  /** A fetch that gives a single message gives the last of what it has popped. */
  lemma {:induction false} FetchGivesSingle(channel: seq<Wire>, collected: seq<Payload>, stop: Option<nat>)
      returns (k: nat)
    requires Fetch(channel, collected, stop).Got? && Fetch(channel, collected, stop).answer.Single?
    ensures 0 < k <= |channel| && Fetch(channel, collected, stop) == Got(Single(channel[k - 1]), channel[k..])
    ensures IsSingle(channel[k - 1])
    decreases |channel|
  {
    if IsSingle(channel[0]) {
      k := 1;
    } else {
      var m := FetchGivesSingle(channel[1..], collected + [channel[0].payload], stop);
      k := m + 1;
    }
  }

  /** A fetch that breaks leaves an end of the channel. */
  lemma {:induction false} FetchLeaves(channel: seq<Wire>, collected: seq<Payload>, stop: Option<nat>) returns (k: nat)
    requires Fetch(channel, collected, stop).Broke?
    ensures k <= |channel| && Fetch(channel, collected, stop).rest == channel[k..]
    decreases |channel|
  {
    if stop == Some(|collected|) {
      k := 0;
    } else if channel == [] {
      k := 0;
    } else if channel[0].Garbled? || |collected| + 1 == channel[0].payload.count {
      k := 1;
    } else {
      var m := FetchLeaves(channel[1..], collected + [channel[0].payload], stop);
      k := m + 1;
    }
  }

  /** Only an empty channel lets a fetch time out. */
  lemma {:induction false} TimesOutIff(channel: seq<Wire>, collected: seq<Payload>, stop: Option<nat>)
    ensures Fetch(channel, collected, stop).TimedOut? <==>
              channel == [] && collected == [] && stop != Some(0)
    decreases |channel|
  {
    if channel != [] && !channel[0].Garbled? && !IsSingle(channel[0]) {
      TimesOutIff(channel[1..], collected + [channel[0].payload], stop);
    }
  }

  /** What a fetch has got does not depend on what comes in behind it. */
  lemma {:induction false} FetchStable(channel: seq<Wire>, collected: seq<Payload>, stop: Option<nat>, more: seq<Wire>)
    requires Fetch(channel, collected, stop).Got?
    ensures Fetch(channel + more, collected, stop)
         == Got(Fetch(channel, collected, stop).answer, Fetch(channel, collected, stop).rest + more)
    decreases |channel|
  {
    assert (channel + more)[0] == channel[0] && (channel + more)[1..] == channel[1..] + more;
    if !IsSingle(channel[0]) && |collected| + 1 != channel[0].payload.count {
      FetchStable(channel[1..], collected + [channel[0].payload], stop, more);
    }
  }

  /** What a fetch has got before the connection fails, it gets without the failure. */
  lemma {:induction false} FetchBeforeStop(channel: seq<Wire>, collected: seq<Payload>, stop: Option<nat>)
    requires Fetch(channel, collected, stop).Got?
    ensures Fetch(channel, collected, None) == Fetch(channel, collected, stop)
    decreases |channel|
  {
    if !IsSingle(channel[0]) && |collected| + 1 != channel[0].payload.count {
      FetchBeforeStop(channel[1..], collected + [channel[0].payload], stop);
    }
  }

  /** For every channel: the first fetch gives the result if and only if the channel starts with the fragments
      of the result. */
  lemma FetchRestoresIff(channel: seq<Wire>, messages: seq<Wire>)
    requires Fragments(messages) && |messages| > 1
    ensures var fetched := Fetch(channel, [], None);
            fetched.Got? && fetched.answer == AnswerOf(messages) <==> Carries(channel, messages)
  {
    var n, fetched := |messages|, Fetch(channel, [], None);
    if Carries(channel, messages) {
      CarriedIsFetched(channel, messages);
    }
    if fetched.Got? && fetched.answer == AnswerOf(messages) {
      var k := FetchGives(channel, [], None);
      var got := PayloadsOf(channel[..k]);
      assert [] + got == got;
      SortKeeps(got);
      assert |multiset(got)| == |multiset(PayloadsOf(messages))|;
      assert k == n;
    }
  }

  lemma CarriedIsFetched(channel: seq<Wire>, messages: seq<Wire>)
    requires Fragments(messages) && |messages| > 1 && Carries(channel, messages)
    ensures Fetch(channel, [], None) == Got(AnswerOf(messages), channel[|messages|..])
  {
    var n := |messages|;
    var got := PayloadsOf(channel[..n]);
    forall i | 0 <= i < n ensures channel[i].payload.count == n && channel[i].payload.data.Some? {
      assert got[i] in multiset(got);
      assert got[i] in multiset(PayloadsOf(messages));
    }
    FetchCollects(channel, [], n);
    assert [] + got == got;
    SortKeeps(got);
    SortOrders(got);
    OneOrder(SortByFragment(got), PayloadsOf(messages));
  }

  /** A failure record that comes before enough fragments is what the fetch returns; the fragments are gone. */
  lemma {:induction false} FailureRecordIsFetched(log: seq<Wire>, record: Wire, later: seq<Wire>,
                                                  collected: seq<Payload>, count: nat)
    requires record.FailureRecord? && |collected| + |log| < count && count > 1
    requires forall i | 0 <= i < |log| :: log[i].Part? && log[i].payload.count == count
    ensures Fetch(log + [record] + later, collected, None) == Got(Single(record), later)
    decreases |log|
  {
    if log == [] {
      assert [record] + later == log + [record] + later;
      assert ([record] + later)[1..] == later;
    } else {
      assert (log + [record] + later)[1..] == log[1..] + [record] + later;
      FailureRecordIsFetched(log[1..], record, later, collected + [log[0].payload], count);
    }
  }
}
