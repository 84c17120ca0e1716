// Polling for the results of a conversion. All files of a conversion are submitted under one id, so that their
// results come in on one channel, in the order in which they are done; a poll fetches for one file after the other
// what the channel has next, and writes the cache back at its end.

module StatusPolling {
  import opened Wrappers
  import opened Fragmentation
  import opened Fetching

  datatype Status = InProgress | Success(result: Answer)

  datatype ProcessingJob = ProcessingJob(filename: string, status: Status)

  /** How a fetch goes: on what the channel has, with what is there having come in too late for it, or with the
      connection failing for good after so many messages. */
  datatype How = Finds | FindsNothing | Interrupted(popped: nat)

  datatype Response = Complete(results: seq<(string, Answer)>) | NotReady | ServerError

  datatype Polling = Polling(cache: seq<ProcessingJob>, channel: seq<Wire>)

  /** A job that has got something, and how many messages were left on the channel when its fetch began. */
  datatype Given = Given(job: nat, left: nat)

  /** The jobs after a sweep, what is left on the channel, and what has been given, in order. */
  datatype Swept = Swept(broken: bool, jobs: seq<ProcessingJob>, channel: seq<Wire>, given: seq<Given>)

  function FetchJob(channel: seq<Wire>, how: How): Fetched {
    match how
    case Finds => Fetch(channel, [], None)
    case FindsNothing => TimedOut
    case Interrupted(popped) => Fetch(channel, [], Some(popped))
  }

  /** The sweep over the jobs, behind those already seen. */
  function Sweep(jobs: seq<ProcessingJob>, hows: seq<How>, channel: seq<Wire>, seen: seq<ProcessingJob>,
                 given: seq<Given>): Swept
    requires |jobs| <= |hows|
    decreases |jobs|
  {
    if jobs == [] then Swept(false, seen, channel, given)
    else if !jobs[0].status.InProgress? then Sweep(jobs[1..], hows[1..], channel, seen + [jobs[0]], given)
    else match FetchJob(channel, hows[0])
         case Broke(rest) => Swept(true, seen, rest, given)
         case TimedOut => Sweep(jobs[1..], hows[1..], channel, seen + [jobs[0]], given)
         case Got(answer, rest) =>
           Sweep(jobs[1..], hows[1..], rest, seen + [jobs[0].(status := Success(answer))],
                 given + [Given(|seen|, |channel|)])
  }

  function SweepAll(c: Polling, hows: seq<How>): Swept
    requires |c.cache| <= |hows|
  {
    Sweep(c.cache, hows, c.channel, [], [])
  }

  /** A sweep that breaks leaves the cache as it was, and so does one after which it cannot be written. */
  function AfterPoll(c: Polling, hows: seq<How>, saved: bool): Polling
    requires |c.cache| <= |hows|
  {
    var swept := SweepAll(c, hows);
    Polling(if swept.broken || !saved then c.cache else swept.jobs, swept.channel)
  }

  function Ready(jobs: seq<ProcessingJob>): nat {
    if jobs == [] then 0 else (if jobs[0].status.Success? then 1 else 0) + Ready(jobs[1..])
  }

  class StatusService {
    var cache: seq<ProcessingJob>
    const queue: ResponseQueue

    function View(): Polling
      reads this, queue
    {
      Polling(cache, queue.channel)
    }

    constructor (jobs: seq<ProcessingJob>)
      ensures View() == Polling(jobs, []) && fresh(queue)
    {
      cache := jobs;
      queue := new ResponseQueue();
    }

    method FetchJobFor(how: How) returns (fetched: Fetched)
      modifies queue
      ensures fetched == FetchJob(old(queue.channel), how)
      ensures queue.channel == if fetched.TimedOut? then old(queue.channel) else fetched.rest
    {
      match how
      case FindsNothing =>
        fetched := TimedOut;
      case Finds =>
        fetched := queue.FetchMessage(None);
      case Interrupted(popped) =>
        fetched := queue.FetchMessage(Some(popped));
    }

    /** The answer to a status request. It is complete exactly if no job is left in progress, and then lists what
        the jobs have got, in the order of the jobs. */
    method GetStatus(hows: seq<How>, saved: bool) returns (response: Response)
      requires |cache| <= |hows|
      modifies this, queue
      ensures View() == AfterPoll(old(View()), hows, saved)
      ensures response.ServerError? <==> SweepAll(old(View()), hows).broken || !saved
      ensures !response.ServerError? ==>
                (response.Complete? <==> forall k :: 0 <= k < |cache| ==> cache[k].status.Success?)
      ensures response.Complete? ==>
                && |response.results| == |cache|
                && forall k :: 0 <= k < |cache| ==>
                     cache[k].status == Success(response.results[k].1) && cache[k].filename == response.results[k].0
    {
      var updated: seq<ProcessingJob> := [];
      ghost var given: seq<Given> := [];
      var ready := 0;
      var jobs := cache;
      for i := 0 to |jobs|
        invariant cache == old(cache)
        invariant SweepAll(old(View()), hows) == Sweep(jobs[i..], hows[i..], queue.channel, updated, given)
        invariant |updated| == i && ready == Ready(updated)
      {
        var job := jobs[i];
        assert jobs[i..][1..] == jobs[i + 1..] && hows[i..][1..] == hows[i + 1..];
        if job.status.InProgress? {
          ghost var left := |queue.channel|;
          var fetched := FetchJobFor(hows[i]);
          if fetched.Broke? {
            return ServerError;
          }
          if fetched.Got? {
            job := job.(status := Success(fetched.answer));
            given := given + [Given(i, left)];
          }
        }
        ReadyMore(updated, job);
        if job.status.Success? {
          ready := ready + 1;
        }
        updated := updated + [job];
      }
      if !saved {
        return ServerError;
      }
      cache := updated;
      AllReady(updated);
      if ready == |updated| {
        var results := Collect(updated);
        return Complete(results);
      }
      return NotReady;
    }
  }

  method Collect(jobs: seq<ProcessingJob>) returns (results: seq<(string, Answer)>)
    requires forall k :: 0 <= k < |jobs| ==> jobs[k].status.Success?
    ensures |results| == |jobs|
    ensures forall k :: 0 <= k < |jobs| ==> results[k] == (jobs[k].filename, jobs[k].status.result)
  {
    results := [];
    for i := 0 to |jobs|
      invariant |results| == i
      invariant forall k :: 0 <= k < i ==> results[k] == (jobs[k].filename, jobs[k].status.result)
    {
      results := results + [(jobs[i].filename, jobs[i].status.result)];
    }
  }

  lemma {:induction false} ReadyMore(jobs: seq<ProcessingJob>, job: ProcessingJob)
    ensures Ready(jobs + [job]) == Ready(jobs) + if job.status.Success? then 1 else 0
  {
    if jobs == [] {
      assert (jobs + [job])[1..] == [];
    } else {
      assert (jobs + [job])[1..] == jobs[1..] + [job];
      ReadyMore(jobs[1..], job);
    }
  }

  lemma {:induction false} AllReady(jobs: seq<ProcessingJob>)
    ensures Ready(jobs) <= |jobs|
    ensures Ready(jobs) == |jobs| <==> forall k :: 0 <= k < |jobs| ==> jobs[k].status.Success?
  {
    if jobs != [] {
      AllReady(jobs[1..]);
    }
  }

  /** A poll keeps the jobs, their order and every result they have. */
  lemma PollKeepsJobs(c: Polling, hows: seq<How>, saved: bool)
    requires |c.cache| <= |hows|
    ensures var cache := AfterPoll(c, hows, saved).cache;
            |cache| == |c.cache| && forall k :: 0 <= k < |cache| ==>
              cache[k].filename == c.cache[k].filename && (c.cache[k].status.Success? ==> cache[k] == c.cache[k])
  {
    if !SweepAll(c, hows).broken {
      SweepKeepsJobs(c.cache, hows, c.channel, [], []);
      assert [] + c.cache == c.cache;
    }
  }

  lemma {:induction false} SweepKeepsJobs(jobs: seq<ProcessingJob>, hows: seq<How>, channel: seq<Wire>,
                                          seen: seq<ProcessingJob>, given: seq<Given>)
    requires |jobs| <= |hows| && !Sweep(jobs, hows, channel, seen, given).broken
    ensures var swept, all := Sweep(jobs, hows, channel, seen, given).jobs, seen + jobs;
            |swept| == |all| && forall k :: 0 <= k < |swept| ==>
              swept[k].filename == all[k].filename && (all[k].status.Success? ==> swept[k] == all[k])
    decreases |jobs|
  {
    if jobs != [] {
      var job, rest, given' := jobs[0], channel, given;
      if job.status.InProgress? {
        match FetchJob(channel, hows[0])
        case Got(answer, left) =>
          job, rest, given' := job.(status := Success(answer)), left, given + [Given(|seen|, |channel|)];
        case _ =>
      }
      SweepKeepsJobs(jobs[1..], hows[1..], rest, seen + [job], given');
    }
  }

  // ---------------------------------------------------------------------------
  // What is lost
  // ---------------------------------------------------------------------------

  /** What can happen at a fetch: it breaks; it pops something; it gives a single message and drops the fragments
      that it has popped before. */
  datatype Mishap = Breaks | Takes | Drops

  predicate Shows(mishap: Mishap, channel: seq<Wire>, fetched: Fetched) {
    match mishap
    case Breaks => fetched.Broke?
    case Takes => !fetched.TimedOut? && |fetched.rest| < |channel|
    case Drops => fetched.Got? && fetched.answer.Single? && |fetched.rest| + 1 < |channel|
  }

  /** The channel when the sweep comes to job k, unless it breaks before. */
  function ChannelAt(jobs: seq<ProcessingJob>, hows: seq<How>, channel: seq<Wire>, k: nat): Option<seq<Wire>>
    requires k <= |jobs| <= |hows|
    decreases k
  {
    if k == 0 then Some(channel)
    else if !jobs[0].status.InProgress? then ChannelAt(jobs[1..], hows[1..], channel, k - 1)
    else match FetchJob(channel, hows[0])
         case Broke(_) => None
         case TimedOut => ChannelAt(jobs[1..], hows[1..], channel, k - 1)
         case Got(_, rest) => ChannelAt(jobs[1..], hows[1..], rest, k - 1)
  }

  /** The sweep comes to job k, fetches for it, and this happens. */
  predicate HappensAt(mishap: Mishap, jobs: seq<ProcessingJob>, hows: seq<How>, channel: seq<Wire>, k: nat)
    requires |jobs| <= |hows|
  {
    && k < |jobs| && jobs[k].status.InProgress?
    && var at := ChannelAt(jobs, hows, channel, k);
       at.Some? && Shows(mishap, at.value, FetchJob(at.value, hows[k]))
  }

  predicate Happens(mishap: Mishap, jobs: seq<ProcessingJob>, hows: seq<How>, channel: seq<Wire>)
    requires |jobs| <= |hows|
    decreases |jobs|
  {
    jobs != [] &&
    if !jobs[0].status.InProgress? then Happens(mishap, jobs[1..], hows[1..], channel)
    else
      var fetched := FetchJob(channel, hows[0]);
      Shows(mishap, channel, fetched)
      || match fetched
         case Broke(_) => false
         case TimedOut => Happens(mishap, jobs[1..], hows[1..], channel)
         case Got(_, rest) => Happens(mishap, jobs[1..], hows[1..], rest)
  }

  lemma {:induction false} HappensSomewhere(mishap: Mishap, jobs: seq<ProcessingJob>, hows: seq<How>,
                                            channel: seq<Wire>)
    requires |jobs| <= |hows|
    ensures Happens(mishap, jobs, hows, channel) <==> exists k :: HappensAt(mishap, jobs, hows, channel, k)
    decreases |jobs|
  {
    if jobs != [] {
      var fetched := FetchJob(channel, hows[0]);
      var rest := if jobs[0].status.InProgress? && fetched.Got? then fetched.rest else channel;
      HappensSomewhere(mishap, jobs[1..], hows[1..], rest);
      if jobs[0].status.InProgress? && Shows(mishap, channel, fetched) {
        assert HappensAt(mishap, jobs, hows, channel, 0);
      }
      if !(jobs[0].status.InProgress? && fetched.Broke?) {
        forall k: nat ensures HappensAt(mishap, jobs, hows, channel, k + 1)
                           == HappensAt(mishap, jobs[1..], hows[1..], rest, k) {
        }
        if k: nat :| HappensAt(mishap, jobs, hows, channel, k) && k > 0 {
          assert HappensAt(mishap, jobs[1..], hows[1..], rest, k - 1);
        }
        if k: nat :| HappensAt(mishap, jobs[1..], hows[1..], rest, k) {
          assert HappensAt(mishap, jobs, hows, channel, k + 1);
        }
      }
    }
  }

  /** A message of a result, as it is kept: fragments lose the text they came in. */
  datatype Item = Fragment(payload: Payload) | Whole(message: Wire)

  function ItemOf(w: Wire): Item {
    if w.Part? && w.payload.count != 1 then Fragment(w.payload) else Whole(w)
  }

  function ItemsOn(channel: seq<Wire>): seq<Item> {
    if channel == [] then [] else [ItemOf(channel[0])] + ItemsOn(channel[1..])
  }

  function ItemsIn(answer: Answer): seq<Item> {
    match answer
    case Single(message) => [ItemOf(message)]
    case Combined(parts) => FragmentsOf(parts)
  }

  function FragmentsOf(parts: seq<Payload>): seq<Item> {
    if parts == [] then [] else [Fragment(parts[0])] + FragmentsOf(parts[1..])
  }

  function ItemsKept(jobs: seq<ProcessingJob>): seq<Item> {
    if jobs == [] then []
    else (if jobs[0].status.Success? then ItemsIn(jobs[0].status.result) else []) + ItemsKept(jobs[1..])
  }

  /** Everything that is on the channel or kept with a job. */
  function Holdings(jobs: seq<ProcessingJob>, channel: seq<Wire>): multiset<Item> {
    multiset(ItemsOn(channel)) + multiset(ItemsKept(jobs))
  }

  lemma {:induction false} ItemsOnConcat(a: seq<Wire>, b: seq<Wire>)
    ensures ItemsOn(a + b) == ItemsOn(a) + ItemsOn(b) && |ItemsOn(a)| == |a|
  {
    if a == [] {
      assert a + b == b;
    } else {
      assert (a + b)[1..] == a[1..] + b;
      ItemsOnConcat(a[1..], b);
    }
  }

  lemma {:induction false} ItemsKeptConcat(a: seq<ProcessingJob>, b: seq<ProcessingJob>)
    ensures ItemsKept(a + b) == ItemsKept(a) + ItemsKept(b)
  {
    if a == [] {
      assert a + b == b;
    } else {
      assert (a + b)[1..] == a[1..] + b;
      ItemsKeptConcat(a[1..], b);
    }
  }

  lemma {:induction false} FragmentsAre(parts: seq<Payload>, part: Item)
    ensures multiset(FragmentsOf(parts))[part] == if part.Fragment? then multiset(parts)[part.payload] else 0
    ensures |FragmentsOf(parts)| == |parts|
  {
    if parts != [] {
      FragmentsAre(parts[1..], part);
      assert parts == [parts[0]] + parts[1..];
    }
  }

  lemma {:induction false} ItemsOfParts(channel: seq<Wire>)
    requires forall i | 0 <= i < |channel| :: channel[i].Part? && channel[i].payload.count != 1
    ensures ItemsOn(channel) == FragmentsOf(PayloadsOf(channel))
  {
    if channel != [] {
      ItemsOfParts(channel[1..]);
      assert PayloadsOf(channel)[1..] == PayloadsOf(channel[1..]);
    }
  }

  /** What a fetch gives has come off the channel, and nothing else has unless it drops fragments. */
  lemma FetchBalance(channel: seq<Wire>, stop: Option<nat>)
    requires Fetch(channel, [], stop).Got?
    ensures var fetched := Fetch(channel, [], stop);
            && |fetched.rest| < |channel|
            && |ItemsIn(fetched.answer)| + |fetched.rest| <= |channel|
            && (Shows(Drops, channel, fetched) <==> |ItemsIn(fetched.answer)| + |fetched.rest| < |channel|)
            && (!Shows(Drops, channel, fetched) ==>
                  multiset(ItemsOn(channel)) == multiset(ItemsIn(fetched.answer)) + multiset(ItemsOn(fetched.rest)))
  {
    var fetched := Fetch(channel, [], stop);
    if fetched.answer.Single? {
      var k := FetchGivesSingle(channel, [], stop);
      if k == 1 {
        assert channel == [channel[0]] + channel[1..];
      }
    } else {
      var k := FetchGives(channel, [], stop);
      CombinedBalance(channel, k, fetched.answer.parts);
    }
  }

  lemma FragmentsSorted(got: seq<Payload>)
    ensures |FragmentsOf(SortByFragment(got))| == |got|
    ensures multiset(FragmentsOf(SortByFragment(got))) == multiset(FragmentsOf(got))
  {
    var parts := SortByFragment(got);
    SortKeeps(got);
    assert |parts| == |multiset(parts)| == |multiset(got)| == |got|;
    FragmentsAre(parts, Whole(Garbled));
    forall item ensures multiset(FragmentsOf(parts))[item] == multiset(FragmentsOf(got))[item] {
      FragmentsAre(parts, item);
      FragmentsAre(got, item);
    }
  }

  lemma CombinedBalance(channel: seq<Wire>, k: nat, parts: seq<Payload>)
    requires k <= |channel| && forall i | 0 <= i < k :: channel[i].Part? && channel[i].payload.count != 1
    requires parts == SortByFragment([] + PayloadsOf(channel[..k]))
    ensures |FragmentsOf(parts)| == k
    ensures multiset(ItemsOn(channel)) == multiset(FragmentsOf(parts)) + multiset(ItemsOn(channel[k..]))
  {
    var got := PayloadsOf(channel[..k]);
    assert [] + got == got;
    FragmentsSorted(got);
    PartsFirst(channel, k);
  }

  lemma PartsFirst(channel: seq<Wire>, k: nat)
    requires k <= |channel| && forall i | 0 <= i < k :: channel[i].Part? && channel[i].payload.count != 1
    ensures ItemsOn(channel) == FragmentsOf(PayloadsOf(channel[..k])) + ItemsOn(channel[k..])
  {
    assert channel == channel[..k] + channel[k..];
    ItemsOnConcat(channel[..k], channel[k..]);
    ItemsOfParts(channel[..k]);
  }

  // ---------------------------------------------------------------------------
  // When nothing is lost
  // ---------------------------------------------------------------------------

  lemma {:induction false} SweepBreaksIff(jobs: seq<ProcessingJob>, hows: seq<How>, channel: seq<Wire>,
                                          seen: seq<ProcessingJob>, given: seq<Given>)
    requires |jobs| <= |hows|
    ensures Sweep(jobs, hows, channel, seen, given).broken <==> Happens(Breaks, jobs, hows, channel)
    decreases |jobs|
  {
    if jobs != [] {
      var job, rest, given' := jobs[0], channel, given;
      if job.status.InProgress? {
        match FetchJob(channel, hows[0])
        case Got(answer, left) =>
          job, rest, given' := job.(status := Success(answer)), left, given + [Given(|seen|, |channel|)];
        case _ =>
      }
      SweepBreaksIff(jobs[1..], hows[1..], rest, seen + [job], given');
    }
  }

  /** A fetch leaves an end of the channel, a shorter one if it gives something. */
  lemma FetchShortens(channel: seq<Wire>, how: How)
    ensures var fetched := FetchJob(channel, how);
            && (!fetched.TimedOut? ==> |fetched.rest| <= |channel|)
            && (!fetched.TimedOut? && |fetched.rest| == |channel| ==> fetched.rest == channel && fetched.Broke?)
  {
    var fetched := FetchJob(channel, how);
    var stop := if how.Interrupted? then Some(how.popped) else None;
    if fetched.Got? {
      FetchBalance(channel, stop);
    } else if fetched.Broke? {
      var k := FetchLeaves(channel, [], stop);
    }
  }

  /** A sweep leaves the channel as it was exactly if no fetch pops anything. */
  lemma {:induction false} SweepTakesIff(jobs: seq<ProcessingJob>, hows: seq<How>, channel: seq<Wire>,
                                         seen: seq<ProcessingJob>, given: seq<Given>)
    requires |jobs| <= |hows|
    ensures var left := Sweep(jobs, hows, channel, seen, given).channel;
            && |left| <= |channel|
            && (|left| < |channel| <==> Happens(Takes, jobs, hows, channel))
            && (|left| == |channel| ==> left == channel)
    decreases |jobs|
  {
    if jobs != [] {
      FetchShortens(channel, hows[0]);
      var job, rest, given' := jobs[0], channel, given;
      if job.status.InProgress? {
        match FetchJob(channel, hows[0])
        case Got(answer, left) =>
          job, rest, given' := job.(status := Success(answer)), left, given + [Given(|seen|, |channel|)];
        case _ =>
      }
      SweepTakesIff(jobs[1..], hows[1..], rest, seen + [job], given');
    }
  }

  /** Nothing more than before, and as much exactly if no fetch drops fragments. */
  ghost predicate Balanced(jobs: seq<ProcessingJob>, channel: seq<Wire>, swept: Swept, drops: bool) {
    && |swept.channel| + |ItemsKept(swept.jobs)| <= |channel| + |ItemsKept(jobs)|
    && (drops <==> |swept.channel| + |ItemsKept(swept.jobs)| < |channel| + |ItemsKept(jobs)|)
    && (!drops ==> Holdings(swept.jobs, swept.channel) == Holdings(jobs, channel))
  }

  lemma JobTakes(seen: seq<ProcessingJob>, job: ProcessingJob, later: seq<ProcessingJob>, answer: Answer)
    requires job.status.InProgress?
    ensures var before, after := seen + ([job] + later), seen + [job.(status := Success(answer))] + later;
            && |ItemsKept(after)| == |ItemsKept(before)| + |ItemsIn(answer)|
            && multiset(ItemsKept(after)) == multiset(ItemsKept(before)) + multiset(ItemsIn(answer))
  {
    var done := job.(status := Success(answer));
    ItemsKeptConcat(seen, [job] + later);
    ItemsKeptConcat([job], later);
    ItemsKeptConcat(seen + [done], later);
    ItemsKeptConcat(seen, [done]);
    assert ItemsKept([job]) == [] + ItemsKept([job][1..]);
    assert ItemsKept([done]) == ItemsIn(answer) + ItemsKept([done][1..]);
  }

  /** One fetch that gives something: what the job gets has come off the channel. */
  lemma StepHoldings(seen: seq<ProcessingJob>, jobs: seq<ProcessingJob>, channel: seq<Wire>, how: How)
    requires jobs != [] && jobs[0].status.InProgress? && FetchJob(channel, how).Got?
    ensures var fetched := FetchJob(channel, how);
            var after := seen + [jobs[0].(status := Success(fetched.answer))] + jobs[1..];
            && |fetched.rest| + |ItemsKept(after)| <= |channel| + |ItemsKept(seen + jobs)|
            && (Shows(Drops, channel, fetched) <==>
                  |fetched.rest| + |ItemsKept(after)| < |channel| + |ItemsKept(seen + jobs)|)
            && (!Shows(Drops, channel, fetched) ==> Holdings(after, fetched.rest) == Holdings(seen + jobs, channel))
  {
    FetchBalance(channel, if how.Interrupted? then Some(how.popped) else None);
    TookAnswer(seen, jobs, FetchJob(channel, how).answer);
  }

  lemma TookAnswer(seen: seq<ProcessingJob>, jobs: seq<ProcessingJob>, answer: Answer)
    requires jobs != [] && jobs[0].status.InProgress?
    ensures var after := seen + [jobs[0].(status := Success(answer))] + jobs[1..];
            && |ItemsKept(after)| == |ItemsKept(seen + jobs)| + |ItemsIn(answer)|
            && multiset(ItemsKept(after)) == multiset(ItemsKept(seen + jobs)) + multiset(ItemsIn(answer))
  {
    assert [jobs[0]] + jobs[1..] == jobs;
    JobTakes(seen, jobs[0], jobs[1..], answer);
  }

  lemma StepBalances(seen: seq<ProcessingJob>, jobs: seq<ProcessingJob>, channel: seq<Wire>, how: How, swept: Swept,
                     dropsLater: bool)
    requires jobs != [] && jobs[0].status.InProgress? && FetchJob(channel, how).Got?
    requires var done := jobs[0].(status := Success(FetchJob(channel, how).answer));
             Balanced(seen + [done] + jobs[1..], FetchJob(channel, how).rest, swept, dropsLater)
    ensures Balanced(seen + jobs, channel, swept, Shows(Drops, channel, FetchJob(channel, how)) || dropsLater)
  {
    StepHoldings(seen, jobs, channel, how);
  }

  lemma {:induction false} SweepBalances(jobs: seq<ProcessingJob>, hows: seq<How>, channel: seq<Wire>,
                                         seen: seq<ProcessingJob>, given: seq<Given>)
    requires |jobs| <= |hows| && !Sweep(jobs, hows, channel, seen, given).broken
    ensures Balanced(seen + jobs, channel, Sweep(jobs, hows, channel, seen, given), Happens(Drops, jobs, hows, channel))
    decreases |jobs|
  {
    if jobs == [] {
      assert seen + jobs == seen;
    } else {
      assert seen + [jobs[0]] + jobs[1..] == seen + jobs;
      if !jobs[0].status.InProgress? || FetchJob(channel, hows[0]).TimedOut? {
        SweepBalances(jobs[1..], hows[1..], channel, seen + [jobs[0]], given);
      } else {
        var fetched := FetchJob(channel, hows[0]);
        var done := jobs[0].(status := Success(fetched.answer));
        SweepBalances(jobs[1..], hows[1..], fetched.rest, seen + [done], given + [Given(|seen|, |channel|)]);
        StepBalances(seen, jobs, channel, hows[0], Sweep(jobs, hows, channel, seen, given),
                     Happens(Drops, jobs[1..], hows[1..], fetched.rest));
      }
    }
  }

  /** When a poll keeps everything that is on the channel or in the cache, for every channel, every cache and every
      way in which its fetches go. If it comes to its end and the cache is written: exactly if no fetch drops
      fragments it has popped for a single message behind them. Otherwise: exactly if no fetch of it has popped
      anything, be it for a job that has got its result or for the one at which it breaks. */
  lemma PollKeepsIff(c: Polling, hows: seq<How>, saved: bool)
    requires |c.cache| <= |hows|
    ensures var d := AfterPoll(c, hows, saved);
            Holdings(d.cache, d.channel) == Holdings(c.cache, c.channel) <==>
              if saved && !exists k :: HappensAt(Breaks, c.cache, hows, c.channel, k)
              then !exists k :: HappensAt(Drops, c.cache, hows, c.channel, k)
              else !exists k :: HappensAt(Takes, c.cache, hows, c.channel, k)
  {
    var swept := SweepAll(c, hows);
    SweepBreaksIff(c.cache, hows, c.channel, [], []);
    HappensSomewhere(Breaks, c.cache, hows, c.channel);
    HappensSomewhere(Drops, c.cache, hows, c.channel);
    HappensSomewhere(Takes, c.cache, hows, c.channel);
    ItemsOnConcat(c.channel, []);
    ItemsOnConcat(swept.channel, []);
    if saved && !swept.broken {
      SweepBalances(c.cache, hows, c.channel, [], []);
      assert [] + c.cache == c.cache;
      SizeOfHoldings(swept.jobs, swept.channel);
      SizeOfHoldings(c.cache, c.channel);
    } else {
      SweepTakesIff(c.cache, hows, c.channel, [], []);
      SizeOfHoldings(c.cache, swept.channel);
      SizeOfHoldings(c.cache, c.channel);
    }
  }

  lemma SizeOfHoldings(jobs: seq<ProcessingJob>, channel: seq<Wire>)
    ensures |Holdings(jobs, channel)| == |channel| + |ItemsKept(jobs)|
  {
    ItemsOnConcat(channel, []);
  }

  // ---------------------------------------------------------------------------
  // Over many polls
  // ---------------------------------------------------------------------------

  /** Anything is published on the channel, or the interface polls. */
  datatype Visit = Publishes(messages: seq<Wire>) | Visits(hows: seq<How>, saved: bool)

  function AfterVisit(c: Polling, visit: Visit): Polling {
    match visit
    case Publishes(messages) => c.(channel := c.channel + messages)
    case Visits(hows, saved) => if |c.cache| <= |hows| then AfterPoll(c, hows, saved) else c
  }

  /** The poll is one that keeps everything. */
  ghost predicate Keeps(c: Polling, visit: Visit) {
    visit.Visits? && |c.cache| <= |visit.hows| ==>
      if visit.saved && !exists k :: HappensAt(Breaks, c.cache, visit.hows, c.channel, k)
      then !exists k :: HappensAt(Drops, c.cache, visit.hows, c.channel, k)
      else !exists k :: HappensAt(Takes, c.cache, visit.hows, c.channel, k)
  }

  function AfterVisits(c: Polling, visits: seq<Visit>): Polling
    decreases |visits|
  {
    if visits == [] then c else AfterVisits(AfterVisit(c, visits[0]), visits[1..])
  }

  ghost predicate AllKeep(c: Polling, visits: seq<Visit>)
    decreases |visits|
  {
    visits == [] || (Keeps(c, visits[0]) && AllKeep(AfterVisit(c, visits[0]), visits[1..]))
  }

  function PublishedIn(visits: seq<Visit>): seq<Wire> {
    if visits == [] then []
    else (if visits[0].Publishes? then visits[0].messages else []) + PublishedIn(visits[1..])
  }

  /** Over every run of such polls, whatever is published in between, everything there was and everything that
      has been published is on the channel or kept with a job. */
  lemma {:induction false} ResultsKept(c: Polling, visits: seq<Visit>)
    requires AllKeep(c, visits)
    ensures var d := AfterVisits(c, visits);
            Holdings(d.cache, d.channel) == Holdings(c.cache, c.channel) + multiset(ItemsOn(PublishedIn(visits)))
    decreases |visits|
  {
    if visits != [] {
      var d := AfterVisit(c, visits[0]);
      match visits[0]
      case Publishes(messages) =>
        ItemsOnConcat(c.channel, messages);
        ItemsOnConcat(messages, PublishedIn(visits[1..]));
      case Visits(hows, saved) =>
        assert [] + PublishedIn(visits[1..]) == PublishedIn(visits[1..]);
        if |c.cache| <= |hows| {
          PollKeepsIff(c, hows, saved);
        }
    }
    if visits != [] {
      ResultsKept(AfterVisit(c, visits[0]), visits[1..]);
    }
  }

  // ---------------------------------------------------------------------------
  // Examples
  // ---------------------------------------------------------------------------

  function ResultSaying(text: string): Wire {
    Part(Payload(false, Some([text]), 0, 1, true), "")
  }

  function Waiting(filename: string): ProcessingJob {
    ProcessingJob(filename, InProgress)
  }

  function Finished(filename: string, answer: Answer): ProcessingJob {
    ProcessingJob(filename, Success(answer))
  }

  /** Two files, one result: it is taken for the first, then the connection fails for the second, and the result is
      gone. */
  lemma LaterBreakLosesResult(first: string, second: string)
    ensures var c := Polling([Waiting(first), Waiting(second)], [ResultSaying("a")]);
            AfterPoll(c, [Finds, Interrupted(0)], true) == Polling(c.cache, [])
  {
    var jobs := [Waiting(first), Waiting(second)];
    var hows := [Finds, Interrupted(0)];
    assert jobs[1..] == [Waiting(second)] && hows[1..] == [Interrupted(0)];
    assert Fetch([ResultSaying("a")], [], None) == Got(Single(ResultSaying("a")), []);
    assert Fetch([], [], Some(0)) == Broke([]);
    var done := Finished(first, Single(ResultSaying("a")));
    assert Sweep(jobs, hows, [ResultSaying("a")], [], [])
        == Sweep(jobs[1..], hows[1..], [], [] + [done], [] + [Given(0, 1)]);
  }

  /** One file, of whose two fragments one has arrived: the fetch waits for the other in vain and breaks, and the
      fragment is gone. */
  lemma MissingFragmentLosesResult(filename: string)
    ensures var c := Polling([Waiting(filename)], [Part(Payload(false, Some([]), 0, 2, true), "")]);
            AfterPoll(c, [Finds], true) == Polling(c.cache, [])
  {
    var w := Part(Payload(false, Some([]), 0, 2, true), "");
    assert Fetch([w], [], None) == Fetch([w][1..], [w.payload], None);
  }
}
