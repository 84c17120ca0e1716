// Whose result a file of a conversion gets.

module StatusOwnership {
  import opened Wrappers
  import opened Fetching
  import opened StatusPolling

  /** A job's turn: the job, the position of the first message popped for it among all that have been published, and
      how many messages had been lost before, popped by polls that broke or could not write the cache. */
  datatype Turn = Turn(job: nat, at: nat, lost: nat)

  /** A conversion with its history: all that has been published, the turns of the jobs that have got something, and
      how many messages have been lost. */
  datatype Conversion = Conversion(cache: seq<ProcessingJob>, channel: seq<Wire>, log: seq<Wire>, turns: seq<Turn>,
                                   lost: nat)

  datatype Event = Arrives(messages: seq<Wire>) | Polls(hows: seq<How>, saved: bool)

  function Less(a: nat, b: nat): nat {
    if b <= a then a - b else 0
  }

  function Turns(given: seq<Given>, published: nat, lost: nat): seq<Turn> {
    seq(|given|, i requires 0 <= i < |given| => Turn(given[i].job, Less(published, given[i].left), lost))
  }

  function SweepOf(s: Conversion, hows: seq<How>): Swept
    requires |s.cache| <= |hows|
  {
    SweepAll(Polling(s.cache, s.channel), hows)
  }

  /** A poll after which jobs keep what they have got. */
  predicate Settles(s: Conversion, hows: seq<How>, saved: bool)
    requires |s.cache| <= |hows|
  {
    saved && !SweepOf(s, hows).broken
  }

  function Next(s: Conversion, event: Event): Conversion {
    match event
    case Arrives(messages) => s.(channel := s.channel + messages, log := s.log + messages)
    case Polls(hows, saved) =>
      if |s.cache| > |hows| then s
      else
        var swept, after := SweepOf(s, hows), AfterPoll(Polling(s.cache, s.channel), hows, saved);
        if Settles(s, hows, saved) then
          Conversion(after.cache, after.channel, s.log, s.turns + Turns(swept.given, |s.log|, s.lost), s.lost)
        else
          Conversion(after.cache, after.channel, s.log, s.turns, s.lost + Less(|s.channel|, |after.channel|))
  }

  function RunOf(s: Conversion, events: seq<Event>): Conversion
    decreases |events|
  {
    if events == [] then s else RunOf(Next(s, events[0]), events[1..])
  }

  /** A new conversion has a job in progress for every file. */
  predicate New(s: Conversion) {
    && s.channel == [] && s.log == [] && s.turns == [] && s.lost == 0
    && forall k | 0 <= k < |s.cache| :: s.cache[k].status.InProgress?
  }

  // ---------------------------------------------------------------------------
  // Where a result comes from
  // ---------------------------------------------------------------------------

  /** The end of a sequence, of that length. */
  function Tail(log: seq<Wire>, left: nat): seq<Wire>
    requires left <= |log|
  {
    log[|log| - left..]
  }

  /** A fetch at this position of the log gives what the job has. */
  predicate Fetched(log: seq<Wire>, at: nat, job: ProcessingJob) {
    && at <= |log|
    && var fetched := Fetch(log[at..], [], None);
       fetched.Got? && job.status == Success(fetched.answer)
  }

  function Jobs(given: seq<Given>): seq<nat> {
    seq(|given|, i requires 0 <= i < |given| => given[i].job)
  }

  /** Within a sweep: what has been given has come off the channel, one fetch behind the other. */
  ghost predicate OffChannel(whole: seq<Wire>, now: seq<ProcessingJob>, channel: seq<Wire>, given: seq<Given>) {
    && |channel| <= |whole| && channel == Tail(whole, |channel|)
    && (forall p | 0 <= p < |given| ::
          && |channel| < given[p].left <= |whole| && given[p].job < |now|
          && Fetched(whole, |whole| - given[p].left, now[given[p].job]))
  }

  /** One behind the other, for different jobs among those already seen. */
  predicate InOrder(given: seq<Given>, seen: nat) {
    && (forall p | 0 <= p < |given| :: given[p].job < seen)
    && (forall p, q | 0 <= p < q < |given| :: given[q].left < given[p].left && given[p].job < given[q].job)
  }

  /** Those given something were in progress, and all others are as they were. */
  ghost predicate Changed(before: seq<ProcessingJob>, now: seq<ProcessingJob>, given: seq<Given>) {
    && |now| == |before|
    && (forall k | 0 <= k < |now| ::
          if k in Jobs(given) then before[k].status.InProgress? && now[k].status.Success? else now[k] == before[k])
  }

  /** A fetch of a sweep leaves an end of its channel, shorter by what it has popped. */
  lemma FetchLeavesTail(channel: seq<Wire>, how: How)
    requires FetchJob(channel, how).Got?
    ensures var fetched := FetchJob(channel, how);
            && fetched == Fetch(channel, [], None)
            && |fetched.rest| < |channel| && fetched.rest == Tail(channel, |fetched.rest|)
  {
    var stop := if how.Interrupted? then Some(how.popped) else None;
    FetchBeforeStop(channel, [], stop);
    if Fetch(channel, [], stop).answer.Single? {
      var k := FetchGivesSingle(channel, [], stop);
    } else {
      var k := FetchGives(channel, [], stop);
    }
  }

  lemma TailOfTail(log: seq<Wire>, left: nat, less: nat)
    requires less <= left <= |log|
    ensures Tail(Tail(log, left), less) == Tail(log, less)
  {
  }

  lemma OneOffChannel(whole: seq<Wire>, seen: seq<ProcessingJob>, job: ProcessingJob, later: seq<ProcessingJob>,
                      channel: seq<Wire>, given: seq<Given>, how: How)
    requires job.status.InProgress? && FetchJob(channel, how).Got? && InOrder(given, |seen|)
    requires OffChannel(whole, seen + ([job] + later), channel, given)
    ensures var fetched := FetchJob(channel, how);
            var now := seen + [job.(status := Success(fetched.answer))] + later;
            OffChannel(whole, now, fetched.rest, given + [Given(|seen|, |channel|)])
  {
    FetchLeavesTail(channel, how);
    var fetched := FetchJob(channel, how);
    TailOfTail(whole, |channel|, |fetched.rest|);
    var was, now := seen + ([job] + later), seen + [job.(status := Success(fetched.answer))] + later;
    assert now[|seen|] == job.(status := Success(fetched.answer));
    forall k | 0 <= k < |seen| ensures now[k] == was[k] {
    }
  }

  lemma OneMoreJob(given: seq<Given>, one: Given)
    ensures Jobs(given + [one]) == Jobs(given) + [one.job]
  {
  }

  lemma OneChanged(before: seq<ProcessingJob>, seen: seq<ProcessingJob>, job: ProcessingJob,
                   later: seq<ProcessingJob>, given: seq<Given>, left: nat, answer: Answer)
    requires job.status.InProgress? && InOrder(given, |seen|)
    requires Changed(before, seen + ([job] + later), given)
    ensures Changed(before, seen + [job.(status := Success(answer))] + later, given + [Given(|seen|, left)])
  {
    OneMoreJob(given, Given(|seen|, left));
    var was, now := seen + ([job] + later), seen + [job.(status := Success(answer))] + later;
    assert was[|seen|] == job && |seen| !in Jobs(given);
    forall k | 0 <= k < |now| && k != |seen| ensures now[k] == was[k] {
    }
  }

  lemma {:induction false} SweepServes(whole: seq<Wire>, before: seq<ProcessingJob>, jobs: seq<ProcessingJob>,
                                       hows: seq<How>, channel: seq<Wire>, seen: seq<ProcessingJob>,
                                       given: seq<Given>)
    requires |jobs| <= |hows| && InOrder(given, |seen|)
    requires OffChannel(whole, seen + jobs, channel, given) && Changed(before, seen + jobs, given)
    requires forall p | 0 <= p < |given| :: |channel| < given[p].left
    ensures var swept := Sweep(jobs, hows, channel, seen, given);
            !swept.broken ==>
              && InOrder(swept.given, |swept.jobs|)
              && OffChannel(whole, swept.jobs, swept.channel, swept.given)
              && Changed(before, swept.jobs, swept.given)
    decreases |jobs|
  {
    if jobs == [] {
      assert seen + jobs == seen;
    } else {
      assert seen + [jobs[0]] + jobs[1..] == seen + jobs;
      assert [jobs[0]] + jobs[1..] == jobs;
      if !jobs[0].status.InProgress? || FetchJob(channel, hows[0]).TimedOut? {
        SweepServes(whole, before, jobs[1..], hows[1..], channel, seen + [jobs[0]], given);
      } else if FetchJob(channel, hows[0]).Got? {
        var fetched := FetchJob(channel, hows[0]);
        var done := jobs[0].(status := Success(fetched.answer));
        OneOffChannel(whole, seen, jobs[0], jobs[1..], channel, given, hows[0]);
        OneChanged(before, seen, jobs[0], jobs[1..], given, |channel|, fetched.answer);
        SweepServes(whole, before, jobs[1..], hows[1..], fetched.rest, seen + [done],
                    given + [Given(|seen|, |channel|)]);
      }
    }
  }

  lemma FetchLeavesSomeTail(channel: seq<Wire>, how: How)
    requires !FetchJob(channel, how).TimedOut?
    ensures var rest := FetchJob(channel, how).rest;
            |rest| <= |channel| && rest == Tail(channel, |rest|)
  {
    if FetchJob(channel, how).Got? {
      FetchLeavesTail(channel, how);
    } else {
      var k := FetchLeaves(channel, [], if how.Interrupted? then Some(how.popped) else None);
    }
  }

  /** However a sweep goes, it leaves an end of the channel. */
  lemma {:induction false} SweepLeavesTail(jobs: seq<ProcessingJob>, hows: seq<How>, channel: seq<Wire>,
                                           seen: seq<ProcessingJob>, given: seq<Given>)
    requires |jobs| <= |hows|
    ensures var left := Sweep(jobs, hows, channel, seen, given).channel;
            |left| <= |channel| && left == Tail(channel, |left|)
    decreases |jobs|
  {
    if jobs != [] {
      var job, rest, given' := jobs[0], channel, given;
      if job.status.InProgress? && !FetchJob(channel, hows[0]).TimedOut? {
        FetchLeavesSomeTail(channel, hows[0]);
        rest := FetchJob(channel, hows[0]).rest;
        if FetchJob(channel, hows[0]).Got? {
          job, given' := job.(status := Success(FetchJob(channel, hows[0]).answer)), given + [Given(|seen|, |channel|)];
        }
      }
      SweepLeavesTail(jobs[1..], hows[1..], rest, seen + [job], given');
      TailOfTail(channel, |rest|, |Sweep(jobs[1..], hows[1..], rest, seen + [job], given').channel|);
    }
  }

  function JobsOf(turns: seq<Turn>): seq<nat> {
    seq(|turns|, i requires 0 <= i < |turns| => turns[i].job)
  }

  ghost predicate ChannelIsTail(s: Conversion) {
    |s.channel| <= |s.log| && s.channel == Tail(s.log, |s.channel|)
  }

  /** Every turn's result is what a fetch at its position gives, and all of it has been popped. */
  ghost predicate TurnsFetched(s: Conversion) {
    forall p | 0 <= p < |s.turns| ::
      && s.turns[p].at + |s.channel| < |s.log| && s.turns[p].job < |s.cache|
      && Fetched(s.log, s.turns[p].at, s.cache[s.turns[p].job])
  }

  /** Positions increase from turn to turn, and the finished jobs are those that have had a turn, each one. */
  ghost predicate TurnsDistinct(s: Conversion) {
    && (forall p, q | 0 <= p < q < |s.turns| ::
          s.turns[p].at < s.turns[q].at && s.turns[p].job != s.turns[q].job)
    && (forall k | 0 <= k < |s.cache| :: s.cache[k].status.Success? <==> k in JobsOf(s.turns))
  }

  ghost predicate Traced(s: Conversion) {
    ChannelIsTail(s) && TurnsFetched(s) && TurnsDistinct(s)
  }

  lemma PublishKeepsTrace(s: Conversion, messages: seq<Wire>)
    requires Traced(s)
    ensures Traced(Next(s, Arrives(messages)))
  {
    var t := Next(s, Arrives(messages));
    forall p | 0 <= p < |t.turns|
      ensures t.turns[p].at + |t.channel| < |t.log| && Fetched(t.log, t.turns[p].at, t.cache[t.turns[p].job])
    {
      var at := s.turns[p].at;
      assert t.log[at..] == s.log[at..] + messages;
      FetchStable(s.log[at..], [], None, messages);
    }
  }

  lemma LostPollKeepsTrace(s: Conversion, hows: seq<How>, saved: bool)
    requires Traced(s) && |s.cache| <= |hows| && !Settles(s, hows, saved)
    ensures Traced(Next(s, Polls(hows, saved)))
  {
    SweepLeavesTail(s.cache, hows, s.channel, [], []);
    TailOfTail(s.log, |s.channel|, |SweepOf(s, hows).channel|);
  }

  /** What a settled poll has given, in terms of its own channel. */
  lemma PollServes(s: Conversion, hows: seq<How>)
    requires |s.cache| <= |hows| && !SweepOf(s, hows).broken
    ensures var swept := SweepOf(s, hows);
            && InOrder(swept.given, |swept.jobs|)
            && OffChannel(s.channel, swept.jobs, swept.channel, swept.given)
            && Changed(s.cache, swept.jobs, swept.given)
  {
    assert [] + s.cache == s.cache;
    SweepServes(s.channel, s.cache, s.cache, hows, s.channel, [], []);
  }

  lemma SamePlace(log: seq<Wire>, channel: seq<Wire>, left: nat, job: ProcessingJob)
    requires left <= |channel| <= |log| && channel == Tail(log, |channel|)
    requires Fetched(channel, |channel| - left, job)
    ensures Fetched(log, |log| - left, job)
  {
    assert log[|log| - left..] == channel[|channel| - left..];
  }

  /** What a poll that settles makes of a conversion. */
  lemma SettledNext(s: Conversion, hows: seq<How>)
    requires |s.cache| <= |hows| && Settles(s, hows, true)
    ensures var swept := SweepOf(s, hows);
            Next(s, Polls(hows, true))
            == Conversion(swept.jobs, swept.channel, s.log, s.turns + Turns(swept.given, |s.log|, s.lost), s.lost)
  {
  }

  lemma NewTurnFetched(s: Conversion, hows: seq<How>, q: nat)
    requires ChannelIsTail(s) && |s.cache| <= |hows| && !SweepOf(s, hows).broken && q < |SweepOf(s, hows).given|
    ensures var swept := SweepOf(s, hows);
            var turn := Turns(swept.given, |s.log|, s.lost)[q];
            && turn.at + |swept.channel| < |s.log| && turn.job < |swept.jobs|
            && Fetched(s.log, turn.at, swept.jobs[turn.job])
  {
    PollServes(s, hows);
    var g := SweepOf(s, hows).given[q];
    SamePlace(s.log, s.channel, g.left, SweepOf(s, hows).jobs[g.job]);
  }

  lemma OldTurnFetched(s: Conversion, hows: seq<How>, p: nat)
    requires TurnsFetched(s) && TurnsDistinct(s) && |s.cache| <= |hows| && !SweepOf(s, hows).broken && p < |s.turns|
    ensures var swept, turn := SweepOf(s, hows), s.turns[p];
            && turn.at + |swept.channel| < |s.log| && turn.job < |swept.jobs|
            && Fetched(s.log, turn.at, swept.jobs[turn.job])
  {
    OldJobStays(s, hows, p);
    SweepLeavesTail(s.cache, hows, s.channel, [], []);
  }

  lemma SettledFetched(s: Conversion, hows: seq<How>)
    requires ChannelIsTail(s) && TurnsFetched(s) && TurnsDistinct(s) && |s.cache| <= |hows| && Settles(s, hows, true)
    ensures ChannelIsTail(Next(s, Polls(hows, true))) && TurnsFetched(Next(s, Polls(hows, true)))
  {
    var swept := SweepOf(s, hows);
    SettledNext(s, hows);
    SweepLeavesTail(s.cache, hows, s.channel, [], []);
    TailOfTail(s.log, |s.channel|, |swept.channel|);
    var turns := s.turns + Turns(swept.given, |s.log|, s.lost);
    forall p | 0 <= p < |turns|
      ensures turns[p].at + |swept.channel| < |s.log| && turns[p].job < |swept.jobs|
      ensures Fetched(s.log, turns[p].at, swept.jobs[turns[p].job])
    {
      if p < |s.turns| {
        OldTurnFetched(s, hows, p);
      } else {
        NewTurnFetched(s, hows, p - |s.turns|);
      }
    }
  }

  /** A job that has had its turn is not in progress, so that a poll leaves it alone. */
  lemma OldJobStays(s: Conversion, hows: seq<How>, p: nat)
    requires TurnsDistinct(s) && TurnsFetched(s) && p < |s.turns| && |s.cache| <= |hows| && !SweepOf(s, hows).broken
    ensures var job, swept := s.turns[p].job, SweepOf(s, hows);
            job < |swept.jobs| == |s.cache| && swept.jobs[job] == s.cache[job] && job !in Jobs(swept.given)
  {
    PollServes(s, hows);
    assert JobsOf(s.turns)[p] == s.turns[p].job;
  }

  /** A turn of before and one of the poll. */
  lemma OldBeforeNew(s: Conversion, hows: seq<How>, p: nat, q: nat)
    requires Traced(s) && |s.cache| <= |hows| && !SweepOf(s, hows).broken
    requires p < |s.turns| && q < |SweepOf(s, hows).given|
    ensures var turn := Turns(SweepOf(s, hows).given, |s.log|, s.lost)[q];
            s.turns[p].at < turn.at && s.turns[p].job != turn.job
  {
    PollServes(s, hows);
    OldJobStays(s, hows, p);
    assert Jobs(SweepOf(s, hows).given)[q] == SweepOf(s, hows).given[q].job;
  }

  lemma NewInOrder(s: Conversion, hows: seq<How>, p: nat, q: nat)
    requires Traced(s) && |s.cache| <= |hows| && !SweepOf(s, hows).broken && p < q < |SweepOf(s, hows).given|
    ensures var turns := Turns(SweepOf(s, hows).given, |s.log|, s.lost);
            turns[p].at < turns[q].at && turns[p].job != turns[q].job
  {
    PollServes(s, hows);
  }

  lemma FinishedHaveTurns(s: Conversion, hows: seq<How>)
    requires TurnsDistinct(s) && |s.cache| <= |hows| && !SweepOf(s, hows).broken
    ensures var swept := SweepOf(s, hows);
            var turns := s.turns + Turns(swept.given, |s.log|, s.lost);
            forall k | 0 <= k < |swept.jobs| :: swept.jobs[k].status.Success? <==> k in JobsOf(turns)
  {
    PollServes(s, hows);
    var swept := SweepOf(s, hows);
    assert JobsOf(s.turns + Turns(swept.given, |s.log|, s.lost)) == JobsOf(s.turns) + Jobs(swept.given);
  }

  lemma SettledDistinct(s: Conversion, hows: seq<How>)
    requires Traced(s) && |s.cache| <= |hows| && Settles(s, hows, true)
    ensures TurnsDistinct(Next(s, Polls(hows, true)))
  {
    var swept, n := SweepOf(s, hows), |s.turns|;
    SettledNext(s, hows);
    FinishedHaveTurns(s, hows);
    var turns := s.turns + Turns(swept.given, |s.log|, s.lost);
    forall p, q | 0 <= p < q < |turns| ensures turns[p].at < turns[q].at && turns[p].job != turns[q].job {
      if p < n <= q {
        OldBeforeNew(s, hows, p, q - n);
      } else if n <= p {
        NewInOrder(s, hows, p - n, q - n);
      }
    }
  }

  lemma NextTraced(s: Conversion, event: Event)
    requires Traced(s)
    ensures Traced(Next(s, event))
  {
    match event
    case Arrives(messages) => PublishKeepsTrace(s, messages);
    case Polls(hows, saved) =>
      if |s.cache| <= |hows| {
        if Settles(s, hows, saved) {
          SettledFetched(s, hows);
          SettledDistinct(s, hows);
        } else {
          LostPollKeepsTrace(s, hows, saved);
        }
      }
  }

  lemma {:induction false} RunTraced(s: Conversion, events: seq<Event>)
    requires Traced(s)
    ensures Traced(RunOf(s, events))
    decreases |events|
  {
    if events != [] {
      NextTraced(s, events[0]);
      RunTraced(Next(s, events[0]), events[1..]);
    }
  }

  /** Whatever is published, by whom and in which order, and however the polls go: every finished job has had one
      turn, the positions increase from turn to turn, and what the job has is what a fetch gives at its position. It
      is a result of several fragments if and only if these fragments start there, each once. */
  lemma ResultsComeFromPositions(s: Conversion, events: seq<Event>)
    requires New(s)
    ensures var t := RunOf(s, events);
            && (forall k | 0 <= k < |t.cache| :: t.cache[k].status.Success? <==> k in JobsOf(t.turns))
            && (forall p, q | 0 <= p < q < |t.turns| ::
                  t.turns[p].at < t.turns[q].at && t.turns[p].job != t.turns[q].job)
            && (forall p | 0 <= p < |t.turns| ::
                  t.turns[p].job < |t.cache| && Fetched(t.log, t.turns[p].at, t.cache[t.turns[p].job]))
  {
    RunTraced(s, events);
  }

  /** A finished job has a given result of several fragments if and only if the fragments of that result start at
      its position, each once and in any order; it has a given single message if and only if that is what the fetch
      there ends with. */
  lemma HasResultIff(s: Conversion, events: seq<Event>, p: nat, result: seq<Wire>)
    requires New(s) && p < |RunOf(s, events).turns| && IsResult(result)
    ensures var t := RunOf(s, events);
            && t.turns[p].job < |t.cache| && t.turns[p].at <= |t.log|
            && Fetch(t.log[t.turns[p].at..], [], None).Got?
            && var status, from := t.cache[t.turns[p].job].status, t.log[t.turns[p].at..];
               && (|result| > 1 ==> (status == Success(AnswerOf(result)) <==> Carries(from, result)))
               && (|result| == 1 ==>
                     (status == Success(AnswerOf(result)) <==>
                      exists k :: 0 <= k < |from| && from[k] == result[0] && IsSingle(from[k])
                                  && Fetch(from, [], None).rest == from[k + 1..]))
  {
    RunTraced(s, events);
    var t := RunOf(s, events);
    var from := t.log[t.turns[p].at..];
    assert Fetched(t.log, t.turns[p].at, t.cache[t.turns[p].job]);
    if |result| > 1 {
      FetchRestoresIff(from, result);
    } else {
      SingleFetchedIff(from, result[0]);
    }
  }

  lemma SingleFetchedIff(from: seq<Wire>, message: Wire)
    requires Fetch(from, [], None).Got?
    ensures Fetch(from, [], None).answer == Single(message) <==>
              exists k :: 0 <= k < |from| && from[k] == message && IsSingle(from[k])
                          && Fetch(from, [], None).rest == from[k + 1..]
  {
    var fetched := Fetch(from, [], None);
    if fetched.answer.Single? {
      var k := FetchGivesSingle(from, [], None);
      assert from[k - 1 + 1..] == from[k..];
      if j :| 0 <= j < |from| && from[j] == message && IsSingle(from[j]) && fetched.rest == from[j + 1..] {
        SameEnd(from, j + 1, k);
      }
    } else {
      var k := FetchGives(from, [], None);
      assert !IsSingle(from[k - 1]);
    }
  }

  lemma SameEnd(xs: seq<Wire>, j: nat, k: nat)
    requires j <= |xs| && k <= |xs| && xs[j..] == xs[k..]
    ensures j == k
  {
    assert |xs[j..]| == |xs| - j && |xs[k..]| == |xs| - k;
  }

  // ---------------------------------------------------------------------------
  // Whole results
  // ---------------------------------------------------------------------------

  /** What is published for each file of a conversion. */
  ghost predicate Published(results: seq<seq<Wire>>) {
    forall f | 0 <= f < |results| :: IsResult(results[f])
  }

  predicate AreFiles(results: seq<seq<Wire>>, files: seq<nat>) {
    forall i | 0 <= i < |files| :: files[i] < |results|
  }

  /** The results of these files, one behind the other. */
  function Blocks(results: seq<seq<Wire>>, files: seq<nat>): seq<Wire>
    requires AreFiles(results, files)
  {
    if files == [] then [] else results[files[0]] + Blocks(results, files[1..])
  }

  /** All that is published are the results of these files, each in one go. */
  predicate WholeResults(results: seq<seq<Wire>>, events: seq<Event>, files: seq<nat>) {
    if events == [] then files == []
    else match events[0]
         case Arrives(messages) =>
           files != [] && files[0] < |results| && messages == results[files[0]]
           && WholeResults(results, events[1..], files[1..])
         case Polls(_, _) => WholeResults(results, events[1..], files)
  }

  /** A connection fails between results only. */
  predicate BreaksBetween(event: Event) {
    event.Polls? ==> forall k | 0 <= k < |event.hows| :: event.hows[k].Interrupted? ==> event.hows[k].popped == 0
  }

  lemma {:induction false} BlocksConcat(results: seq<seq<Wire>>, a: seq<nat>, b: seq<nat>)
    requires AreFiles(results, a) && AreFiles(results, b)
    ensures AreFiles(results, a + b) && Blocks(results, a + b) == Blocks(results, a) + Blocks(results, b)
  {
    if a == [] {
      assert a + b == b;
    } else {
      assert (a + b)[1..] == a[1..] + b && (a + b)[0] == a[0];
      BlocksConcat(results, a[1..], b);
      Regroup(results[a[0]], Blocks(results, a[1..]), Blocks(results, b));
    }
  }

  lemma Regroup(a: seq<Wire>, b: seq<Wire>, c: seq<Wire>)
    ensures a + b + c == a + (b + c)
  {
  }

  /** Where the i-th result starts in the log. */
  function StartOf(results: seq<seq<Wire>>, files: seq<nat>, i: nat): nat
    requires AreFiles(results, files) && i <= |files|
  {
    |Blocks(results, files[..i])|
  }

  lemma NextStart(results: seq<seq<Wire>>, files: seq<nat>, i: nat)
    requires AreFiles(results, files) && i < |files|
    ensures StartOf(results, files, i + 1) == StartOf(results, files, i) + |results[files[i]]|
  {
    assert files[..i + 1] == files[..i] + [files[i]];
    BlocksConcat(results, files[..i], [files[i]]);
    assert Blocks(results, [files[i]]) == results[files[i]] + Blocks(results, [files[i]][1..]);
  }

  lemma StartAndRest(results: seq<seq<Wire>>, files: seq<nat>, i: nat)
    requires AreFiles(results, files) && i <= |files|
    ensures Blocks(results, files) == Blocks(results, files[..i]) + Blocks(results, files[i..])
    ensures Blocks(results, files)[StartOf(results, files, i)..] == Blocks(results, files[i..])
    ensures |Blocks(results, files)| == StartOf(results, files, i) + |Blocks(results, files[i..])|
  {
    assert files == files[..i] + files[i..];
    BlocksConcat(results, files[..i], files[i..]);
  }

  /** What a fetch on whole results does. */
  lemma FetchWhole(results: seq<seq<Wire>>, files: seq<nat>, m: nat, how: How)
    requires Published(results) && AreFiles(results, files) && m <= |files|
    requires how.Interrupted? ==> how.popped == 0
    ensures FetchJob(Blocks(results, files[m..]), how) ==
              if how.Interrupted? then Broke(Blocks(results, files[m..]))
              else if how.FindsNothing? || m == |files| then TimedOut
              else Got(AnswerOf(results[files[m]]), Blocks(results, files[m + 1..]))
  {
    if m < |files| && how.Finds? {
      assert files[m..][1..] == files[m + 1..];
      FetchRestores(results[files[m]], Blocks(results, files[m + 1..]));
    }
  }

  /** How many messages the results from the i-th on have. */
  function LeftFrom(results: seq<seq<Wire>>, files: seq<nat>, i: nat): nat
    requires AreFiles(results, files) && i <= |files|
  {
    |Blocks(results, files[i..])|
  }

  /** The fetches of a sweep pop whole results, one behind the other. */
  ghost predicate PopsWhole(results: seq<seq<Wire>>, files: seq<nat>, m: nat, swept: Swept, before: nat)
    requires AreFiles(results, files)
  {
    && before <= |swept.given|
    && var n := |swept.given| - before;
       m + n <= |files| && swept.channel == Blocks(results, files[m + n..])
       && forall q | before <= q < |swept.given| :: swept.given[q].left == LeftFrom(results, files, m + q - before)
  }

  lemma {:induction false} SweepPopsWhole(results: seq<seq<Wire>>, files: seq<nat>, m: nat,
                                          jobs: seq<ProcessingJob>, hows: seq<How>, seen: seq<ProcessingJob>,
                                          given: seq<Given>)
    requires Published(results) && AreFiles(results, files) && m <= |files| && |jobs| <= |hows|
    requires BreaksBetween(Polls(hows, true))
    ensures var swept := Sweep(jobs, hows, Blocks(results, files[m..]), seen, given);
            PopsWhole(results, files, m, swept, |given|) && given <= swept.given
    decreases |jobs|
  {
    if jobs != [] {
      var channel := Blocks(results, files[m..]);
      FetchWhole(results, files, m, hows[0]);
      if jobs[0].status.InProgress? && FetchJob(channel, hows[0]).Got? {
        var fetched := FetchJob(channel, hows[0]);
        var done, given' := jobs[0].(status := Success(fetched.answer)), given + [Given(|seen|, |channel|)];
        SweepPopsWhole(results, files, m + 1, jobs[1..], hows[1..], seen + [done], given');
        PopsOneMore(results, files, m, Sweep(jobs, hows, channel, seen, given), given, Given(|seen|, |channel|));
      } else if !jobs[0].status.InProgress? || FetchJob(channel, hows[0]).TimedOut? {
        SweepPopsWhole(results, files, m, jobs[1..], hows[1..], seen + [jobs[0]], given);
      }
    }
  }

  lemma PopsOneMore(results: seq<seq<Wire>>, files: seq<nat>, m: nat, swept: Swept, given: seq<Given>, one: Given)
    requires AreFiles(results, files) && m < |files| && one.left == |Blocks(results, files[m..])|
    requires PopsWhole(results, files, m + 1, swept, |given| + 1) && given + [one] <= swept.given
    ensures PopsWhole(results, files, m, swept, |given|) && given <= swept.given
  {
    assert swept.given[|given|] == one;
  }

  /** The place behind that of the turn before p, and what had been lost before that turn. */
  function EndBefore(places: seq<nat>, p: nat): nat
    requires p <= |places|
  {
    if p == 0 then 0 else places[p - 1] + 1
  }

  function LostBefore(turns: seq<Turn>, p: nat): nat
    requires p <= |turns|
  {
    if p == 0 then 0 else turns[p - 1].lost
  }

  ghost predicate Increasing(places: seq<nat>, m: nat) {
    && (forall p | 0 <= p < |places| :: places[p] < m)
    && (forall p, q | 0 <= p < q < |places| :: places[p] < places[q])
  }

  /** What lies between a turn's place and that of the turn before has been lost in between. */
  ghost predicate TurnAligned(results: seq<seq<Wire>>, files: seq<nat>, turns: seq<Turn>, places: seq<nat>, p: nat)
    requires AreFiles(results, files) && p < |places| == |turns| && Increasing(places, |files|)
  {
    && turns[p].at == StartOf(results, files, places[p])
    && turns[p].lost + StartOf(results, files, EndBefore(places, p)) == LostBefore(turns, p) + turns[p].at
  }

  ghost predicate TurnsAligned(results: seq<seq<Wire>>, files: seq<nat>, turns: seq<Turn>, places: seq<nat>)
    requires AreFiles(results, files) && |places| == |turns| && Increasing(places, |files|)
  {
    forall p | 0 <= p < |turns| :: TurnAligned(results, files, turns, places, p)
  }

  /** What lies between the place of the last turn and that of the next result has been lost since. */
  ghost predicate Accounted(results: seq<seq<Wire>>, files: seq<nat>, lost: nat, turns: seq<Turn>, places: seq<nat>,
                            m: nat)
    requires AreFiles(results, files) && |places| == |turns| && m <= |files| && Increasing(places, |files|)
  {
    lost + StartOf(results, files, EndBefore(places, |places|))
    == LostBefore(turns, |turns|) + StartOf(results, files, m)
  }

  /** The turns have got the results at these places of the arrival order, the next on the channel is that at m, and
      what lies between has been lost. */
  ghost predicate Aligned(results: seq<seq<Wire>>, files: seq<nat>, s: Conversion, places: seq<nat>, m: nat) {
    && AreFiles(results, files) && m <= |files| && |places| == |s.turns| && Increasing(places, m)
    && s.log == Blocks(results, files) && s.channel == Blocks(results, files[m..])
    && Accounted(results, files, s.lost, s.turns, places, m)
    && TurnsAligned(results, files, s.turns, places)
  }

  lemma StartStays(results: seq<seq<Wire>>, files: seq<nat>, file: nat, i: nat)
    requires AreFiles(results, files) && file < |results| && i <= |files|
    ensures AreFiles(results, files + [file])
    ensures StartOf(results, files + [file], i) == StartOf(results, files, i)
  {
    assert (files + [file])[..i] == files[..i];
  }

  lemma ArrivalBlocks(results: seq<seq<Wire>>, files: seq<nat>, m: nat, file: nat)
    requires AreFiles(results, files) && m <= |files| && file < |results|
    ensures AreFiles(results, files + [file])
    ensures Blocks(results, files + [file]) == Blocks(results, files) + results[file]
    ensures Blocks(results, (files + [file])[m..]) == Blocks(results, files[m..]) + results[file]
  {
    assert Blocks(results, [file]) == results[file] + Blocks(results, [file][1..]);
    BlocksConcat(results, files, [file]);
    assert (files + [file])[m..] == files[m..] + [file];
    BlocksConcat(results, files[m..], [file]);
  }

  lemma ArrivalTurns(results: seq<seq<Wire>>, files: seq<nat>, turns: seq<Turn>, places: seq<nat>, file: nat)
    requires AreFiles(results, files) && |places| == |turns| && file < |results| && Increasing(places, |files|)
    requires TurnsAligned(results, files, turns, places)
    ensures AreFiles(results, files + [file]) && TurnsAligned(results, files + [file], turns, places)
  {
    StartStays(results, files, file, 0);
    forall p | 0 <= p < |places| ensures TurnAligned(results, files + [file], turns, places, p) {
      assert TurnAligned(results, files, turns, places, p);
      StartStays(results, files, file, places[p]);
      StartStays(results, files, file, EndBefore(places, p));
    }
  }

  lemma ArrivalAligned(results: seq<seq<Wire>>, files: seq<nat>, s: Conversion, places: seq<nat>, m: nat, file: nat)
    requires Aligned(results, files, s, places, m) && file < |results|
    ensures Aligned(results, files + [file], Next(s, Arrives(results[file])), places, m)
  {
    ArrivalBlocks(results, files, m, file);
    StartStays(results, files, file, EndBefore(places, |places|));
    StartStays(results, files, file, m);
    ArrivalTurns(results, files, s.turns, places, file);
  }

  /** The next n places. */
  function Places(m: nat, n: nat): seq<nat> {
    seq(n, i requires 0 <= i < n => m + i)
  }

  lemma MorePlaces(places: seq<nat>, m: nat, n: nat)
    requires Increasing(places, m)
    ensures Increasing(places + Places(m, n), m + n)
  {
  }

  /** What a poll pops of whole results. */
  lemma PollPops(results: seq<seq<Wire>>, files: seq<nat>, s: Conversion, m: nat, hows: seq<How>)
    requires Published(results) && AreFiles(results, files) && m <= |files| && |s.cache| <= |hows|
    requires s.channel == Blocks(results, files[m..]) && BreaksBetween(Polls(hows, true))
    ensures var swept := SweepOf(s, hows);
            && m + |swept.given| <= |files|
            && swept.channel == Blocks(results, files[m + |swept.given|..])
            && LeftsFrom(results, files, m, swept.given)
  {
    SweepPopsWhole(results, files, m, s.cache, hows, [], []);
  }

  /** Each of these was given the result at the next place. */
  ghost predicate LeftsFrom(results: seq<seq<Wire>>, files: seq<nat>, m: nat, given: seq<Given>)
    requires AreFiles(results, files) && m + |given| <= |files|
  {
    forall q | 0 <= q < |given| :: given[q].left == LeftFrom(results, files, m + q)
  }

  lemma OldTurnAligned(results: seq<seq<Wire>>, files: seq<nat>, turns: seq<Turn>, places: seq<nat>,
                       more: seq<Turn>, next: seq<nat>, p: nat)
    requires AreFiles(results, files) && p < |places| == |turns| && |next| == |more|
    requires Increasing(places, |files|) && Increasing(places + next, |files|)
    requires TurnAligned(results, files, turns, places, p)
    ensures TurnAligned(results, files, turns + more, places + next, p)
  {
  }

  /** A turn that is given the result at the next place but q. */
  lemma NewTurnAligned(results: seq<seq<Wire>>, files: seq<nat>, s: Conversion, places: seq<nat>, m: nat,
                       given: seq<Given>, q: nat)
    requires Aligned(results, files, s, places, m) && m + |given| <= |files| && LeftsFrom(results, files, m, given)
    requires q < |given| && Increasing(places + Places(m, |given|), |files|)
    ensures TurnAligned(results, files, s.turns + Turns(given, |s.log|, s.lost), places + Places(m, |given|),
                        |s.turns| + q)
  {
    var turns, all := s.turns + Turns(given, |s.log|, s.lost), places + Places(m, |given|);
    var p := |s.turns| + q;
    StartAndRest(results, files, m + q);
    assert turns[p] == Turn(given[q].job, Less(|s.log|, given[q].left), s.lost) && all[p] == m + q;
    if q == 0 {
      assert EndBefore(all, p) == EndBefore(places, |places|) && LostBefore(turns, p) == LostBefore(s.turns, |s.turns|);
    } else {
      assert EndBefore(all, p) == m + q && LostBefore(turns, p) == s.lost;
    }
  }

  lemma SettledTurns(results: seq<seq<Wire>>, files: seq<nat>, s: Conversion, places: seq<nat>, m: nat,
                     given: seq<Given>)
    requires Aligned(results, files, s, places, m) && m + |given| <= |files| && LeftsFrom(results, files, m, given)
    ensures var turns, all := s.turns + Turns(given, |s.log|, s.lost), places + Places(m, |given|);
            Increasing(all, m + |given|) && TurnsAligned(results, files, turns, all)
  {
    var turns, all := s.turns + Turns(given, |s.log|, s.lost), places + Places(m, |given|);
    MorePlaces(places, m, |given|);
    forall p | 0 <= p < |turns| ensures TurnAligned(results, files, turns, all, p) {
      if p < |s.turns| {
        OldTurnAligned(results, files, s.turns, places, Turns(given, |s.log|, s.lost), Places(m, |given|), p);
      } else {
        NewTurnAligned(results, files, s, places, m, given, p - |s.turns|);
      }
    }
  }

  lemma SettledAccount(results: seq<seq<Wire>>, files: seq<nat>, s: Conversion, places: seq<nat>, m: nat,
                       given: seq<Given>)
    requires Aligned(results, files, s, places, m) && m + |given| <= |files|
    ensures var turns, all := s.turns + Turns(given, |s.log|, s.lost), places + Places(m, |given|);
            && |all| == |turns| && Increasing(all, |files|)
            && Accounted(results, files, s.lost, turns, all, m + |given|)
  {
    MorePlaces(places, m, |given|);
    var turns, all := s.turns + Turns(given, |s.log|, s.lost), places + Places(m, |given|);
    if given == [] {
      assert all == places && turns == s.turns;
    } else {
      assert EndBefore(all, |all|) == m + |given| && LostBefore(turns, |turns|) == s.lost;
    }
  }

  lemma AlignedIs(results: seq<seq<Wire>>, files: seq<nat>, t: Conversion, places: seq<nat>, m: nat)
    requires AreFiles(results, files) && m <= |files| && |places| == |t.turns| && Increasing(places, m)
    requires t.log == Blocks(results, files) && t.channel == Blocks(results, files[m..])
    requires Accounted(results, files, t.lost, t.turns, places, m)
    requires TurnsAligned(results, files, t.turns, places)
    ensures Aligned(results, files, t, places, m)
  {
  }

  lemma GivenAligned(results: seq<seq<Wire>>, files: seq<nat>, s: Conversion, places: seq<nat>, m: nat,
                     given: seq<Given>, t: Conversion, all: seq<nat>, m': nat)
    requires Aligned(results, files, s, places, m)
    requires m + |given| == m' <= |files| && LeftsFrom(results, files, m, given)
    requires t.turns == s.turns + Turns(given, |s.log|, s.lost) && t.lost == s.lost
    requires all == places + Places(m, |given|)
    requires t.log == Blocks(results, files) && t.channel == Blocks(results, files[m'..])
    ensures Aligned(results, files, t, all, m')
  {
    SettledTurns(results, files, s, places, m, given);
    SettledAccount(results, files, s, places, m, given);
    AlignedIs(results, files, t, all, m');
  }

  lemma SettledPops(results: seq<seq<Wire>>, files: seq<nat>, s: Conversion, places: seq<nat>, m: nat, hows: seq<How>)
    requires Published(results) && Aligned(results, files, s, places, m)
    requires BreaksBetween(Polls(hows, true)) && |s.cache| <= |hows| && Settles(s, hows, true)
    ensures var swept, t := SweepOf(s, hows), Next(s, Polls(hows, true));
            && m + |swept.given| <= |files| && LeftsFrom(results, files, m, swept.given)
            && t.turns == s.turns + Turns(swept.given, |s.log|, s.lost) && t.lost == s.lost
            && t.log == Blocks(results, files) && t.channel == Blocks(results, files[m + |swept.given|..])
  {
    PollPops(results, files, s, m, hows);
    SettledNext(s, hows);
  }

  /** A poll that settles: the jobs given something get the next places. */
  lemma SettledAligned(results: seq<seq<Wire>>, files: seq<nat>, s: Conversion, places: seq<nat>, m: nat,
                       hows: seq<How>)
      returns (t: Conversion, all: seq<nat>, m': nat)
    requires Published(results) && Aligned(results, files, s, places, m)
    requires BreaksBetween(Polls(hows, true)) && |s.cache| <= |hows| && Settles(s, hows, true)
    ensures t == Next(s, Polls(hows, true)) && Aligned(results, files, t, all, m')
  {
    var given := SweepOf(s, hows).given;
    t, all, m' := Next(s, Polls(hows, true)), places + Places(m, |given|), m + |given|;
    SettledPops(results, files, s, places, m, hows);
    GivenAligned(results, files, s, places, m, given, t, all, m');
  }

  /** A poll that does not settle loses what it has popped. */
  lemma LostAligned(results: seq<seq<Wire>>, files: seq<nat>, s: Conversion, places: seq<nat>, m: nat,
                    hows: seq<How>, saved: bool)
      returns (t: Conversion, m': nat)
    requires Published(results) && Aligned(results, files, s, places, m)
    requires BreaksBetween(Polls(hows, saved)) && |s.cache| <= |hows| && !Settles(s, hows, saved)
    ensures t == Next(s, Polls(hows, saved)) && Aligned(results, files, t, places, m')
  {
    t, m' := Next(s, Polls(hows, saved)), m + |SweepOf(s, hows).given|;
    PollPops(results, files, s, m, hows);
    LostAccounted(results, files, s, places, m, m');
    AlignedIs(results, files, t, places, m');
  }

  lemma LostAccounted(results: seq<seq<Wire>>, files: seq<nat>, s: Conversion, places: seq<nat>, m: nat, m': nat)
    requires Aligned(results, files, s, places, m) && m <= m' <= |files|
    ensures Increasing(places, m')
    ensures Accounted(results, files, s.lost + Less(|s.channel|, |Blocks(results, files[m'..])|), s.turns, places, m')
  {
    StartAndRest(results, files, m);
    StartAndRest(results, files, m');
    StartsAscend(results, files, m, m');
  }

  lemma StartsAscend(results: seq<seq<Wire>>, files: seq<nat>, i: nat, j: nat)
    requires AreFiles(results, files) && i <= j <= |files|
    ensures StartOf(results, files, i) <= StartOf(results, files, j)
  {
    assert files[..j] == files[..i] + files[i..j];
    BlocksConcat(results, files[..i], files[i..j]);
  }

  lemma PollAligned(results: seq<seq<Wire>>, files: seq<nat>, s: Conversion, places: seq<nat>, m: nat, hows: seq<How>,
                    saved: bool)
      returns (t: Conversion, places': seq<nat>, m': nat)
    requires Published(results) && Aligned(results, files, s, places, m) && BreaksBetween(Polls(hows, saved))
    ensures t == Next(s, Polls(hows, saved)) && Aligned(results, files, t, places', m')
  {
    t, places', m' := s, places, m;
    if |s.cache| <= |hows| {
      if Settles(s, hows, saved) {
        t, places', m' := SettledAligned(results, files, s, places, m, hows);
      } else {
        t, m' := LostAligned(results, files, s, places, m, hows, saved);
      }
    }
  }

  lemma {:induction false} RunAligned(results: seq<seq<Wire>>, s: Conversion, events: seq<Event>, before: seq<nat>,
                                      files: seq<nat>, places: seq<nat>, m: nat)
      returns (places': seq<nat>, m': nat)
    requires Published(results) && WholeResults(results, events, files)
    requires forall i | 0 <= i < |events| :: BreaksBetween(events[i])
    requires Aligned(results, before, s, places, m)
    ensures Aligned(results, before + files, RunOf(s, events), places', m')
    decreases |events|
  {
    if events == [] {
      assert before + files == before;
      places', m' := places, m;
    } else {
      assert BreaksBetween(events[0]);
      var t, now, rest, next, k := NextAligned(results, s, events, before, files, places, m);
      assert before + files == now + rest;
      places', m' := RunAligned(results, t, events[1..], now, rest, next, k);
    }
  }

  lemma Shifted(before: seq<nat>, files: seq<nat>)
    requires files != []
    ensures before + files == before + [files[0]] + files[1..]
  {
  }

  lemma NextAligned(results: seq<seq<Wire>>, s: Conversion, events: seq<Event>, before: seq<nat>, files: seq<nat>,
                    places: seq<nat>, m: nat)
      returns (t: Conversion, now: seq<nat>, rest: seq<nat>, places': seq<nat>, m': nat)
    requires events != [] && BreaksBetween(events[0])
    requires Published(results) && WholeResults(results, events, files) && Aligned(results, before, s, places, m)
    ensures before + files == now + rest && WholeResults(results, events[1..], rest)
    ensures t == Next(s, events[0]) && Aligned(results, now, t, places', m')
  {
    t, now, rest, places', m' := Next(s, events[0]), before, files, places, m;
    match events[0]
    case Arrives(messages) =>
      now, rest := before + [files[0]], files[1..];
      Shifted(before, files);
      ArrivalAligned(results, before, s, places, m, files[0]);
    case Polls(hows, saved) =>
      t, places', m' := PollAligned(results, before, s, places, m, hows, saved);
  }

  lemma StartsIncrease(results: seq<seq<Wire>>, files: seq<nat>, i: nat, j: nat)
    requires Published(results) && AreFiles(results, files) && i < j <= |files|
    ensures StartOf(results, files, i) < StartOf(results, files, j)
    decreases j - i
  {
    NextStart(results, files, i);
    if i + 1 < j {
      StartsIncrease(results, files, i + 1, j);
    }
  }

  /** If the turns before have the first places and nothing had been lost before them, so it is for this one. */
  lemma FirstPlaceIff(results: seq<seq<Wire>>, files: seq<nat>, turns: seq<Turn>, places: seq<nat>, p: nat)
    requires Published(results) && AreFiles(results, files) && |places| == |turns| && p < |turns|
    requires Increasing(places, |files|) && TurnsAligned(results, files, turns, places)
    requires EndBefore(places, p) == p && LostBefore(turns, p) == 0
    ensures places[p] == p <==> turns[p].lost == 0
  {
    assert TurnAligned(results, files, turns, places, p);
    AtLeast(places, |files|, p);
    if places[p] != p {
      StartsIncrease(results, files, p, places[p]);
    }
  }

  predicate FirstPlaces(places: seq<nat>, n: nat)
    requires n <= |places|
  {
    forall p | 0 <= p < n :: places[p] == p
  }

  predicate NothingLost(turns: seq<Turn>, n: nat)
    requires n <= |turns|
  {
    forall p | 0 <= p < n :: turns[p].lost == 0
  }

  /** The turns have the first places in turn exactly if nothing had been lost before any of them. */
  lemma FirstPlacesIff(results: seq<seq<Wire>>, files: seq<nat>, turns: seq<Turn>, places: seq<nat>, n: nat)
    requires Published(results) && AreFiles(results, files) && |places| == |turns| && n <= |turns|
    requires Increasing(places, |files|) && TurnsAligned(results, files, turns, places)
    ensures FirstPlaces(places, n) <==> NothingLost(turns, n)
    decreases n
  {
    if n > 0 {
      FirstPlacesIff(results, files, turns, places, n - 1);
      OneMoreFirst(turns, places, n - 1);
      if FirstPlaces(places, n - 1) {
        assert EndBefore(places, n - 1) == n - 1 && LostBefore(turns, n - 1) == 0;
        FirstPlaceIff(results, files, turns, places, n - 1);
      }
    }
  }

  lemma OneMoreFirst(turns: seq<Turn>, places: seq<nat>, n: nat)
    requires n < |places| == |turns|
    ensures FirstPlaces(places, n + 1) <==> FirstPlaces(places, n) && places[n] == n
    ensures NothingLost(turns, n + 1) <==> NothingLost(turns, n) && turns[n].lost == 0
  {
  }

  lemma {:induction false} AtLeast(places: seq<nat>, m: nat, p: nat)
    requires Increasing(places, m) && p < |places|
    ensures places[p] >= p
  {
    if p > 0 {
      AtLeast(places, m, p - 1);
    }
  }

  /** Every finished file has its own result. */
  ghost predicate AllOwn(results: seq<seq<Wire>>, s: Conversion)
    requires Published(results) && |s.cache| == |results|
  {
    forall k | 0 <= k < |s.cache| && s.cache[k].status.Success? :: s.cache[k].status.result == AnswerOf(results[k])
  }

  lemma NextKeepsCount(s: Conversion, event: Event)
    requires Traced(s)
    ensures |Next(s, event).cache| == |s.cache|
  {
    if event.Polls? && |s.cache| <= |event.hows| && Settles(s, event.hows, event.saved) {
      PollServes(s, event.hows);
    }
  }

  lemma {:induction false} RunKeepsCount(s: Conversion, events: seq<Event>)
    requires Traced(s)
    ensures |RunOf(s, events).cache| == |s.cache|
    decreases |events|
  {
    if events != [] {
      NextKeepsCount(s, events[0]);
      NextTraced(s, events[0]);
      RunKeepsCount(Next(s, events[0]), events[1..]);
    }
  }

  /** A turn's result is that at its place. */
  lemma PlacedResult(results: seq<seq<Wire>>, files: seq<nat>, s: Conversion, places: seq<nat>, m: nat, p: nat)
    requires Published(results) && Traced(s) && Aligned(results, files, s, places, m) && p < |places|
    ensures s.turns[p].job < |s.cache|
    ensures s.cache[s.turns[p].job].status == Success(AnswerOf(results[files[places[p]]]))
  {
    assert TurnAligned(results, files, s.turns, places, p);
    var i := places[p];
    StartAndRest(results, files, i);
    assert Fetched(s.log, s.turns[p].at, s.cache[s.turns[p].job]);
    FetchWhole(results, files, i, Finds);
  }

  /** Whose result a file gets, over every run of arrivals and polls, also such as break or cannot write the cache, as
      long as each result is published in one go and no connection fails inside one. The turns have got the results
      at increasing places of the arrival order; every finished file has its own result if and only if, place by
      place, what has arrived there is what the file should get; and these are the first places, without a gap, if
      and only if no message had been lost before any turn. */
  lemma OwnResultsIff(results: seq<seq<Wire>>, s: Conversion, events: seq<Event>, files: seq<nat>)
      returns (places: seq<nat>)
    requires New(s) && |s.cache| == |results| && Published(results) && WholeResults(results, events, files)
    requires forall i | 0 <= i < |events| :: BreaksBetween(events[i])
    ensures var t := RunOf(s, events);
            && |t.cache| == |results| && |places| == |t.turns| && Increasing(places, |files|)
            && AreFiles(results, files)
            && (forall p | 0 <= p < |places| ::
                  t.turns[p].job < |results|
                  && t.cache[t.turns[p].job].status == Success(AnswerOf(results[files[places[p]]])))
            && (AllOwn(results, t) <==>
                forall p | 0 <= p < |places| ::
                  AnswerOf(results[files[places[p]]]) == AnswerOf(results[t.turns[p].job]))
            && (FirstPlaces(places, |places|) <==> NothingLost(t.turns, |t.turns|))
  {
    var t := RunOf(s, events);
    RunTraced(s, events);
    RunKeepsCount(s, events);
    var m;
    places, m := RunAligned(results, s, events, [], files, [], 0);
    assert [] + files == files;
    forall p | 0 <= p < |places|
      ensures t.turns[p].job < |results|
      ensures t.cache[t.turns[p].job].status == Success(AnswerOf(results[files[places[p]]]))
    {
      PlacedResult(results, files, t, places, m, p);
    }
    FirstPlacesIff(results, files, t.turns, places, |places|);
    OwnByTurns(results, t, files, places);
  }

  lemma OwnByTurns(results: seq<seq<Wire>>, t: Conversion, files: seq<nat>, places: seq<nat>)
    requires Published(results) && |t.cache| == |results| && TurnsDistinct(t) && |places| == |t.turns|
    requires AreFiles(results, files) && Increasing(places, |files|)
    requires forall p | 0 <= p < |places| ::
               t.turns[p].job < |results|
               && t.cache[t.turns[p].job].status == Success(AnswerOf(results[files[places[p]]]))
    ensures AllOwn(results, t) <==>
              forall p | 0 <= p < |places| ::
                AnswerOf(results[files[places[p]]]) == AnswerOf(results[t.turns[p].job])
  {
    if forall p | 0 <= p < |places| :: AnswerOf(results[files[places[p]]]) == AnswerOf(results[t.turns[p].job]) {
      forall k | 0 <= k < |t.cache| && t.cache[k].status.Success?
        ensures t.cache[k].status.result == AnswerOf(results[k])
      {
        var p :| 0 <= p < |t.turns| && JobsOf(t.turns)[p] == k;
        assert t.turns[p].job == k;
      }
    }
  }

  // ---------------------------------------------------------------------------
  // In the order of the files
  // ---------------------------------------------------------------------------

  /** No result comes in behind a fetch's back. */
  predicate Punctual(event: Event) {
    event.Polls? ==> forall k | 0 <= k < |event.hows| :: !event.hows[k].FindsNothing?
  }

  /** The first jobs are finished. */
  predicate FirstDone(jobs: seq<ProcessingJob>, n: nat) {
    n <= |jobs| && forall k | 0 <= k < |jobs| :: jobs[k].status.Success? <==> k < n
  }

  lemma FindsSomething(channel: seq<Wire>, how: How)
    requires !how.FindsNothing?
    ensures FetchJob(channel, how).TimedOut? ==> channel == []
    ensures channel == [] ==> !FetchJob(channel, how).Got?
  {
    TimesOutIff(channel, [], if how.Interrupted? then Some(how.popped) else None);
  }

  /** Punctual fetches serve the jobs in turn. */
  lemma {:induction false} SweepInTurn(jobs: seq<ProcessingJob>, hows: seq<How>, channel: seq<Wire>,
                                       seen: seq<ProcessingJob>, given: seq<Given>, n: nat)
    requires |jobs| <= |hows| && Punctual(Polls(hows, true)) && FirstDone(seen + jobs, n)
    requires |seen| <= n || channel == []
    ensures var swept := Sweep(jobs, hows, channel, seen, given);
            !swept.broken ==>
              && |given| <= |swept.given| && FirstDone(swept.jobs, n + |swept.given| - |given|)
              && Jobs(swept.given) == Jobs(given) + Places(n, |swept.given| - |given|)
    decreases |jobs|
  {
    if jobs == [] {
      assert seen + jobs == seen;
      assert Jobs(given) + Places(n, 0) == Jobs(given);
    } else {
      FindsSomething(channel, hows[0]);
      assert [jobs[0]] + jobs[1..] == jobs && seen + [jobs[0]] + jobs[1..] == seen + jobs;
      assert (seen + jobs)[|seen|] == jobs[0];
      if !jobs[0].status.InProgress? || FetchJob(channel, hows[0]).TimedOut? {
        SweepInTurn(jobs[1..], hows[1..], channel, seen + [jobs[0]], given, n);
      } else if FetchJob(channel, hows[0]).Got? {
        var fetched := FetchJob(channel, hows[0]);
        var done, one := jobs[0].(status := Success(fetched.answer)), Given(|seen|, |channel|);
        OneMoreDone(seen, jobs[0], jobs[1..], done, n);
        SweepInTurn(jobs[1..], hows[1..], fetched.rest, seen + [done], given + [one], n + 1);
        OneMoreJob(given, one);
        var swept := Sweep(jobs, hows, channel, seen, given);
        if !swept.broken {
          assert [n] + Places(n + 1, |swept.given| - |given| - 1) == Places(n, |swept.given| - |given|);
        }
      }
    }
  }

  lemma OneMoreDone(seen: seq<ProcessingJob>, job: ProcessingJob, later: seq<ProcessingJob>, done: ProcessingJob,
                    n: nat)
    requires FirstDone(seen + ([job] + later), n) && |seen| <= n && job.status.InProgress? && done.status.Success?
    ensures |seen| == n && FirstDone(seen + [done] + later, n + 1)
  {
    var was, now := seen + ([job] + later), seen + [done] + later;
    assert was[|seen|] == job && now[|seen|] == done;
    forall k | 0 <= k < |now| && k != |seen| ensures now[k] == was[k] {
    }
  }

  /** The p-th turn is that of the p-th job. */
  ghost predicate JobsInTurn(s: Conversion) {
    FirstDone(s.cache, |s.turns|) && JobsOf(s.turns) == Places(0, |s.turns|)
  }

  lemma NextInTurn(s: Conversion, event: Event)
    requires JobsInTurn(s) && Punctual(event)
    ensures JobsInTurn(Next(s, event))
  {
    if event.Polls? && |s.cache| <= |event.hows| && Settles(s, event.hows, event.saved) {
      SettledInTurn(s, event.hows);
      TurnsJoin(s.turns, SweepOf(s, event.hows).given, |s.log|, s.lost);
    }
  }

  lemma SettledInTurn(s: Conversion, hows: seq<How>)
    requires JobsInTurn(s) && Punctual(Polls(hows, true)) && |s.cache| <= |hows| && !SweepOf(s, hows).broken
    ensures var swept := SweepOf(s, hows);
            && FirstDone(swept.jobs, |s.turns| + |swept.given|)
            && Jobs(swept.given) == Places(|s.turns|, |swept.given|)
  {
    assert [] + s.cache == s.cache;
    var n, given := |s.turns|, SweepOf(s, hows).given;
    SweepInTurn(s.cache, hows, s.channel, [], [], n);
    assert Jobs([]) == [] && [] + Places(n, |given|) == Places(n, |given|);
  }

  lemma TurnsJoin(turns: seq<Turn>, given: seq<Given>, published: nat, lost: nat)
    requires JobsOf(turns) == Places(0, |turns|) && Jobs(given) == Places(|turns|, |given|)
    ensures var all := turns + Turns(given, published, lost);
            |all| == |turns| + |given| && JobsOf(all) == Places(0, |turns| + |given|)
  {
    assert JobsOf(turns + Turns(given, published, lost)) == JobsOf(turns) + Jobs(given);
    assert Places(0, |turns|) + Places(|turns|, |given|) == Places(0, |turns| + |given|);
  }

  lemma {:induction false} RunInTurn(s: Conversion, events: seq<Event>)
    requires JobsInTurn(s) && forall i | 0 <= i < |events| :: Punctual(events[i])
    ensures JobsInTurn(RunOf(s, events))
    decreases |events|
  {
    if events != [] {
      assert Punctual(events[0]);
      NextInTurn(s, events[0]);
      RunInTurn(Next(s, events[0]), events[1..]);
    }
  }

  /** No poll that breaks, or cannot write the cache, pops anything. */
  ghost predicate LosesNothing(s: Conversion, events: seq<Event>)
    decreases |events|
  {
    events != [] ==>
      && (events[0].Polls? && |s.cache| <= |events[0].hows| && !Settles(s, events[0].hows, events[0].saved) ==>
            !exists k :: HappensAt(Takes, s.cache, events[0].hows, s.channel, k))
      && LosesNothing(Next(s, events[0]), events[1..])
  }

  lemma NextLoses(s: Conversion, event: Event)
    ensures Next(s, event).lost >= s.lost
    ensures event.Polls? && |s.cache| <= |event.hows| && !Settles(s, event.hows, event.saved) ==>
              (Next(s, event).lost == s.lost <==> !exists k :: HappensAt(Takes, s.cache, event.hows, s.channel, k))
    ensures !(event.Polls? && |s.cache| <= |event.hows| && !Settles(s, event.hows, event.saved)) ==>
              Next(s, event).lost == s.lost
  {
    if event.Polls? && |s.cache| <= |event.hows| {
      SweepTakesIff(s.cache, event.hows, s.channel, [], []);
      HappensSomewhere(Takes, s.cache, event.hows, s.channel);
    }
  }

  /** Exactly then nothing is lost. */
  lemma {:induction false} LostNothingIff(s: Conversion, events: seq<Event>)
    ensures RunOf(s, events).lost >= s.lost
    ensures RunOf(s, events).lost == s.lost <==> LosesNothing(s, events)
    decreases |events|
  {
    if events != [] {
      NextLoses(s, events[0]);
      LostNothingIff(Next(s, events[0]), events[1..]);
    }
  }

  /** What had been lost before a turn only grows from turn to turn. */
  ghost predicate LostGrows(s: Conversion) {
    && (forall p | 0 <= p < |s.turns| :: s.turns[p].lost <= s.lost)
    && (forall p, q | 0 <= p < q < |s.turns| :: s.turns[p].lost <= s.turns[q].lost)
  }

  lemma {:induction false} RunGrows(s: Conversion, events: seq<Event>)
    requires LostGrows(s)
    ensures LostGrows(RunOf(s, events)) && s.turns <= RunOf(s, events).turns
    decreases |events|
  {
    if events != [] {
      NextLoses(s, events[0]);
      RunGrows(Next(s, events[0]), events[1..]);
    }
  }

  lemma {:induction false} RunsJoin(s: Conversion, a: seq<Event>, b: seq<Event>)
    ensures RunOf(s, a + b) == RunOf(RunOf(s, a), b)
    decreases |a|
  {
    if a == [] {
      assert a + b == b;
    } else {
      assert (a + b)[1..] == a[1..] + b && (a + b)[0] == a[0];
      RunsJoin(Next(s, a[0]), a[1..], b);
    }
  }

  /** No two files have the same result. */
  ghost predicate Different(results: seq<seq<Wire>>)
    requires Published(results)
  {
    forall f, g | 0 <= f < g < |results| :: AnswerOf(results[f]) != AnswerOf(results[g])
  }

  /** The last event is the last to give anything. */
  lemma LastTurnLost(s: Conversion, before: seq<Event>, hows: seq<How>, saved: bool, after: seq<Event>)
    requires New(s)
    requires var u := RunOf(s, before);
             var t := RunOf(s, before + ([Polls(hows, saved)] + after));
             |u.turns| < |Next(u, Polls(hows, saved)).turns| == |t.turns|
    ensures var t := RunOf(s, before + ([Polls(hows, saved)] + after));
            NothingLost(t.turns, |t.turns|) <==> LosesNothing(s, before)
  {
    var u, t := RunOf(s, before), RunOf(s, before + ([Polls(hows, saved)] + after));
    var v := Next(u, Polls(hows, saved));
    RunsJoin(s, before, [Polls(hows, saved)] + after);
    assert ([Polls(hows, saved)] + after)[1..] == after;
    LostNothingIff(s, before);
    RunGrows(s, before);
    NextLoses(u, Polls(hows, saved));
    RunGrows(v, after);
    assert t.turns == v.turns;
    assert v.turns[|v.turns| - 1].lost == u.lost;
  }

  /** When results that arrive in the order of the files reach their files: for every run in which each result is
      published in one go, no connection fails inside a result and none comes in behind a fetch's back, every
      finished file has its own result if no poll that broke, or could not write the cache, had popped anything
      before the last poll that gave something; and only then, if all results are different. */
  lemma OwnResultsInOrderIff(results: seq<seq<Wire>>, s: Conversion, before: seq<Event>, hows: seq<How>, saved: bool,
                             after: seq<Event>, files: seq<nat>)
    requires New(s) && |s.cache| == |results| && Published(results)
    requires var events := before + ([Polls(hows, saved)] + after);
             && WholeResults(results, events, files)
             && forall i | 0 <= i < |events| :: BreaksBetween(events[i]) && Punctual(events[i])
    requires forall i | 0 <= i < |files| :: files[i] == i
    requires var u := RunOf(s, before);
             var t := RunOf(s, before + ([Polls(hows, saved)] + after));
             |u.turns| < |Next(u, Polls(hows, saved)).turns| == |t.turns|
    ensures var t := RunOf(s, before + ([Polls(hows, saved)] + after));
            && |t.cache| == |results|
            && (LosesNothing(s, before) ==> AllOwn(results, t))
            && (Different(results) && AllOwn(results, t) ==> LosesNothing(s, before))
  {
    var events := before + ([Polls(hows, saved)] + after);
    var t := RunOf(s, events);
    var places := OwnResultsIff(results, s, events, files);
    LastTurnLost(s, before, hows, saved, after);
    assert JobsOf(s.turns) == Places(0, 0);
    RunInTurn(s, events);
    forall p | 0 <= p < |places| ensures t.turns[p].job == p && files[places[p]] == places[p] {
      assert JobsOf(t.turns)[p] == Places(0, |t.turns|)[p];
    }
  }

  // ---------------------------------------------------------------------------
  // Examples
  // ---------------------------------------------------------------------------

  function TwoFiles(first: string, second: string): Conversion {
    Conversion([Waiting(first), Waiting(second)], [], [], [], 0)
  }

  function A(): Wire {
    ResultSaying("a")
  }

  function B(): Wire {
    ResultSaying("b")
  }

  lemma ADiffersFromB()
    ensures IsResult([A()]) && IsResult([B()]) && AnswerOf([A()]) == Single(A()) != Single(B()) == AnswerOf([B()])
  {
    assert "a"[0] != "b"[0];
    assert A().payload.data.value[0] != B().payload.data.value[0];
  }

  lemma TwoServed(one: ProcessingJob, two: ProcessingJob, x: Wire, y: Wire)
    requires one.status.InProgress? && two.status.InProgress? && IsSingle(x) && IsSingle(y)
    ensures Sweep([one, two], [Finds, Finds], [x, y], [], [])
         == Swept(false, [one.(status := Success(Single(x))), two.(status := Success(Single(y)))], [],
                  [Given(0, 2), Given(1, 1)])
  {
    var done, last := one.(status := Success(Single(x))), two.(status := Success(Single(y)));
    assert Fetch([x, y], [], None) == Got(Single(x), [y]);
    assert [one, two][1..] == [two] && [Finds, Finds][1..] == [Finds] && [x, y][1..] == [y];
    assert [] + [done] == [done] && [] + [Given(0, 2)] == [Given(0, 2)];
    assert Fetch([y], [], None) == Got(Single(y), []);
    assert [two][1..] == [] && [Finds][1..] == [];
    assert [done] + [last] == [done, last];
    assert [Given(0, 2)] + [Given(1, 1)] == [Given(0, 2), Given(1, 1)];
    assert Sweep([two], [Finds], [y], [done], [Given(0, 2)])
        == Sweep([], [], [], [done, last], [Given(0, 2), Given(1, 1)]);
  }

  lemma RunFirst(s: Conversion, event: Event, rest: seq<Event>)
    ensures RunOf(s, [event] + rest) == RunOf(Next(s, event), rest)
  {
    assert ([event] + rest)[1..] == rest;
  }

  /** Two files, whose results arrive in the other order: both are finished, and each has the other's. */
  lemma FilesGetEachOthersResult(first: string, second: string)
    ensures New(TwoFiles(first, second)) && AnswerOf([A()]) != AnswerOf([B()])
    ensures RunOf(TwoFiles(first, second),
                  [Arrives([B()])] + ([Arrives([A()])] + ([Polls([Finds, Finds], true)] + []))).cache
         == [Finished(first, Single(B())), Finished(second, Single(A()))]
  {
    ADiffersFromB();
    var s, poll := TwoFiles(first, second), Polls([Finds, Finds], true);
    RunFirst(s, Arrives([B()]), [Arrives([A()])] + ([poll] + []));
    assert [] + [B()] == [B()];
    var one := Conversion(s.cache, [B()], [B()], [], 0);
    RunFirst(one, Arrives([A()]), [poll] + []);
    assert [B()] + [A()] == [B(), A()];
    RunFirst(Conversion(s.cache, [B(), A()], [B(), A()], [], 0), poll, []);
    TwoServed(Waiting(first), Waiting(second), B(), A());
  }

  lemma FirstServedThenBreaks(first: string, second: string)
    ensures var swept := Sweep([Waiting(first), Waiting(second)], [Finds, Interrupted(0)], [A()], [], []);
            swept.broken && swept.channel == []
  {
    var jobs, hows := [Waiting(first), Waiting(second)], [Finds, Interrupted(0)];
    assert jobs[1..] == [Waiting(second)] && hows[1..] == [Interrupted(0)];
    assert Fetch([A()], [], None) == Got(Single(A()), []);
    assert Fetch([], [], Some(0)) == Broke([]);
    var done := Finished(first, Single(A()));
    assert Sweep(jobs, hows, [A()], [], []) == Sweep(jobs[1..], hows[1..], [], [] + [done], [] + [Given(0, 1)]);
  }

  lemma FirstServedOnly(first: string, second: string)
    ensures var swept := Sweep([Waiting(first), Waiting(second)], [Finds, Finds], [B()], [], []);
            swept == Swept(false, [Finished(first, Single(B())), Waiting(second)], [], [Given(0, 1)])
  {
    var jobs, hows, done := [Waiting(first), Waiting(second)], [Finds, Finds], Finished(first, Single(B()));
    assert jobs[1..] == [Waiting(second)] && hows[1..] == [Finds] && [Waiting(second)][1..] == [] && [Finds][1..] == [];
    assert Fetch([B()], [], None) == Got(Single(B()), []);
    assert [] + [done] == [done] && [] + [Given(0, 1)] == [Given(0, 1)];
    assert Sweep(jobs, hows, [B()], [], []) == Sweep([Waiting(second)], [Finds], [], [done], [Given(0, 1)]);
    assert Sweep([Waiting(second)], [Finds], [], [done], [Given(0, 1)])
        == Sweep([], [], [], [done] + [Waiting(second)], [Given(0, 1)]);
  }

  /** Two files, whose results arrive in their order; but the poll that takes the first result breaks at the second
      file and loses it, so that the first file ends with the result of the second. */
  lemma LostResultShiftsOthers(first: string, second: string)
    ensures New(TwoFiles(first, second)) && AnswerOf([A()]) != AnswerOf([B()])
    ensures var broken, poll := Polls([Finds, Interrupted(0)], true), Polls([Finds, Finds], true);
            var t := RunOf(TwoFiles(first, second),
                           [Arrives([A()])] + ([broken] + ([Arrives([B()])] + ([poll] + []))));
            && t.log == [A(), B()] && t.turns == [Turn(0, 1, 1)]
            && t.cache == [Finished(first, Single(B())), Waiting(second)]
  {
    ADiffersFromB();
    var s := TwoFiles(first, second);
    var broken, poll := Polls([Finds, Interrupted(0)], true), Polls([Finds, Finds], true);
    RunFirst(s, Arrives([A()]), [broken] + ([Arrives([B()])] + ([poll] + [])));
    assert [] + [A()] == [A()];
    var one := Conversion(s.cache, [A()], [A()], [], 0);
    RunFirst(one, broken, [Arrives([B()])] + ([poll] + []));
    FirstServedThenBreaks(first, second);
    var two := Conversion(s.cache, [], [A()], [], 1);
    assert Next(one, broken) == two;
    RunFirst(two, Arrives([B()]), [poll] + []);
    assert [] + [B()] == [B()] && [A()] + [B()] == [A(), B()];
    var three := Conversion(s.cache, [B()], [A(), B()], [], 1);
    RunFirst(three, poll, []);
    FirstServedOnly(first, second);
    assert [] + Turns([Given(0, 1)], 2, 1) == [Turn(0, 1, 1)];
  }
}
