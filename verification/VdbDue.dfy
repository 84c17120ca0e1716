// When the vector-database sink writes what it holds: by count and by time, said of the rows alone.

module VdbDue {
  import opened Wrappers
  import opened VdbSink

  /** The collection a message goes to: the default one unless it names another. */
  function Target(cfg: Config, u: Upload): string {
    match u.target
    case None => cfg.defaultName
    case Some(name) => if name == "" then cfg.defaultName else name
  }

  /** The accumulator under a key once the message's rows are in it. */
  function Held(cfg: Config, s: Sink, u: Upload, key: string): Accumulation
    requires key in s.held || key == Target(cfg, u)
  {
    if key in s.held && key == Target(cfg, u)
    then Accumulation(s.held[key].count + |u.df|, s.held[key].lastInsert, s.held[key].frames + [u.df])
    else if key in s.held then s.held[key]
    else Accumulation(|u.df|, u.created, [u.df])
  }

  /** The batch is full, or the last insert is as long ago as the interval. */
  predicate TimeToWrite(cfg: Config, a: Accumulation, now: int) {
    |RowsOf(a.frames)| >= cfg.batchSize || (a.lastInsert != -1 && a.lastInsert + cfg.writeInterval <= now)
  }

  /** What the flush does to the accumulator under a key that it comes to. */
  ghost predicate Handled(cfg: Config, s: Sink, t: Sink, now: int, key: string) {
    && key in s.held && key in t.held
    && var a := s.held[key];
       if a.frames != [] && TimeToWrite(cfg, a, now)
       then t.held[key] == Accumulation(0, now, []) && At(t.store, key) == At(s.store, key) + RowsOf(a.frames)
       else t.held[key] == a && At(t.store, key) == At(s.store, key)
  }

  ghost predicate LeftAlone(s: Sink, t: Sink, key: string) {
    && (key in s.held <==> key in t.held) && (key in s.held ==> t.held[key] == s.held[key])
    && At(t.store, key) == At(s.store, key)
  }

  /** One turn of the flush loop that goes through. */
  lemma Turn(cfg: Config, s: Sink, i: nat, now: int) returns (s': Sink)
    requires SinkOk(s) && i < |s.order|
    ensures SinkOk(s') && s'.order == s.order && s'.script == s.script && s.calls <= s'.calls <= s.calls + 1
    ensures s'.calls == s.calls + 1 && !s.script(s.calls) ==> FlushFrom(cfg, s, i, now) == (s', false)
    ensures s'.calls == s.calls || s.script(s.calls) ==>
              && FlushFrom(cfg, s, i, now) == FlushFrom(cfg, s', i + 1, now)
              && Handled(cfg, s, s', now, s.order[i])
              && forall key | key != s.order[i] :: LeftAlone(s, s', key)
  {
    var at := s.order[i];
    if !Due(cfg, s.held[at], now) || s.held[at].frames == [] {
      s' := s;
    } else if s.script(s.calls) {
      FlushOneKeeps(s, at, now, at);
      s' := Flushed(s, at, now);
    } else {
      s' := Insert(s, at, RowsOf(s.held[at].frames));
    }
  }

  lemma HandledOnce(cfg: Config, s: Sink, s': Sink, t: Sink, now: int, key: string, first: bool, later: bool)
    requires if first then Handled(cfg, s, s', now, key) else LeftAlone(s, s', key)
    requires if later then Handled(cfg, s', t, now, key) else LeftAlone(s', t, key)
    requires !(first && later)
    ensures if first || later then Handled(cfg, s, t, now, key) else LeftAlone(s, t, key)
  {
  }

  lemma {:induction false} FlushHandles(cfg: Config, s: Sink, i: nat, now: int, t: Sink, key: string)
    requires SinkOk(s) && i <= |s.order| && FlushFrom(cfg, s, i, now) == (t, true)
    ensures if key in s.order[i..] then Handled(cfg, s, t, now, key) else LeftAlone(s, t, key)
    decreases |s.order| - i
  {
    if i < |s.order| {
      var s' := Turn(cfg, s, i, now);
      KeyFrom(s, i, key);
      FlushHandles(cfg, s', i + 1, now, t, key);
      HandledOnce(cfg, s, s', t, now, key, key == s.order[i], key in s.order[i + 1..]);
    }
  }

  /** The database refuses none of these inserts. */
  ghost predicate AllTaken(script: nat -> bool, from: nat, to: nat) {
    forall n: nat | from <= n < to :: script(n)
  }

  lemma OneMoreTaken(script: nat -> bool, from: nat, next: nat, to: nat)
    requires from <= next <= from + 1 && next <= to
    ensures AllTaken(script, from, to) <==> (next == from || script(from)) && AllTaken(script, next, to)
  {
  }

  /** The flush loop from the i-th accumulator on: where it ends, and whether it goes through. */
  ghost predicate EndsIn(cfg: Config, s: Sink, i: nat, now: int, t: Sink, ok: bool) {
    SinkOk(s) && i <= |s.order| && FlushFrom(cfg, s, i, now) == (t, ok)
  }

  lemma NextTurn(cfg: Config, s: Sink, i: nat, now: int, t: Sink, ok: bool) returns (s': Sink, goesOn: bool)
    requires EndsIn(cfg, s, i, now, t, ok) && i < |s.order|
    ensures s'.order == s.order && s'.script == s.script && s.calls <= s'.calls <= s.calls + 1
    ensures goesOn <==> s'.calls == s.calls || s.script(s.calls)
    ensures if goesOn then EndsIn(cfg, s', i + 1, now, t, ok) else !ok && t == s'
  {
    s' := Turn(cfg, s, i, now);
    goesOn := s'.calls == s.calls || s.script(s.calls);
  }

  lemma LastTurn(cfg: Config, s: Sink, now: int, t: Sink, ok: bool)
    requires EndsIn(cfg, s, |s.order|, now, t, ok)
    ensures ok && t == s
  {
  }

  /** Whether a flush goes through. */
  lemma {:induction false} FlushFailsIff(cfg: Config, s: Sink, i: nat, now: int, t: Sink, ok: bool)
    requires EndsIn(cfg, s, i, now, t, ok) && i <= |s.order|
    ensures t.calls >= s.calls && (ok <==> AllTaken(s.script, s.calls, t.calls))
    decreases |s.order| - i
  {
    if i < |s.order| {
      var s', goesOn := NextTurn(cfg, s, i, now, t, ok);
      if goesOn {
        FlushFailsIff(cfg, s', i + 1, now, t, ok);
        OneMoreTaken(s.script, s.calls, s'.calls, t.calls);
      }
    } else {
      LastTurn(cfg, s, now, t, ok);
    }
  }

  /** The message has rows, for a collection that it names or for a default one that is there. */
  predicate Taken(u: Upload) {
    u.df != [] && (u.exists_ || (u.target.Some? && u.target.value != ""))
  }

  lemma AppendHolds(cfg: Config, s: Sink, u: Upload, key: string)
    requires SinkOk(s)
    ensures var s' := Append(s, Target(cfg, u), u.df, u.created);
            && SinkOk(s') && s'.calls == s.calls && s'.script == s.script && s'.store == s.store
            && (key in s'.held <==> key in s.held || key == Target(cfg, u))
            && (key in s'.held ==> s'.held[key] == Held(cfg, s, u, key))
  {
    AppendKeeps(s, Target(cfg, u), u.df, u.created, key);
  }

  lemma TakenIsFlushed(cfg: Config, s: Sink, u: Upload)
    requires SinkOk(s) && Taken(u)
    ensures OnUpload(cfg, s, u) == FlushFrom(cfg, Append(s, Target(cfg, u), u.df, u.created), 0, u.now)
  {
  }

  /** What a message that goes through leaves under a key. */
  ghost predicate Written(cfg: Config, s: Sink, t: Sink, u: Upload, key: string)
    requires key in s.held || key == Target(cfg, u)
  {
    var a := Held(cfg, s, u, key);
    && key in t.held
    && if a.frames != [] && TimeToWrite(cfg, a, u.now)
       then t.held[key] == Accumulation(0, u.now, []) && At(t.store, key) == At(s.store, key) + RowsOf(a.frames)
       else t.held[key] == a && At(t.store, key) == At(s.store, key)
  }

  /** One message. Without rows nothing happens; with rows for a default collection that is not there it fails. Any
      other goes through exactly if the database refuses none of the inserts made for it, and then every accumulator
      that holds rows and is full, or was last written so long ago, is in the database and empty, and every other
      holds what it held, with the rows of the message. */
  lemma WrittenWhenDue(cfg: Config, s: Sink, u: Upload, key: string)
    requires SinkOk(s)
    ensures var (t, ok) := OnUpload(cfg, s, u);
            && (!Taken(u) ==> t == s && ok == (u.df == []))
            && (Taken(u) ==> (ok <==> AllTaken(s.script, s.calls, t.calls)))
            && (Taken(u) && ok && (key in s.held || key == Target(cfg, u)) ==> Written(cfg, s, t, u, key))
  {
    if Taken(u) {
      var s' := Append(s, Target(cfg, u), u.df, u.created);
      AppendHolds(cfg, s, u, key);
      TakenIsFlushed(cfg, s, u);
      var (t, ok) := FlushFrom(cfg, s', 0, u.now);
      FlushFailsIff(cfg, s', 0, u.now, t, ok);
      if ok && key in s'.held {
        FlushHandles(cfg, s', 0, u.now, t, key);
        assert s'.order[0..] == s'.order;
      }
    }
  }

  /** The interval runs from the start: the rows of the first message for the default collection of a new sink are
      written at once if and only if they fill a batch, or the interval has passed since the sink was made. */
  lemma FirstRowsInTime(cfg: Config, script: nat -> bool, start: nat, u: Upload)
    requires u.df != [] && u.exists_ && u.target.None? && forall n: nat :: script(n)
    ensures SinkOk(NewSink(cfg, script, start))
    ensures var (t, ok) := OnUpload(cfg, NewSink(cfg, script, start), u);
            ok && At(t.store, cfg.defaultName)
                  == if |u.df| >= cfg.batchSize || u.now - start >= cfg.writeInterval then u.df else []
  {
    var s := NewSink(cfg, script, start);
    var (t, ok) := OnUpload(cfg, s, u);
    WrittenWhenDue(cfg, s, u, cfg.defaultName);
    assert AllTaken(s.script, s.calls, t.calls);
    var a := Held(cfg, s, u, cfg.defaultName);
    assert a == Accumulation(|u.df|, start, [u.df]);
    assert [u.df][1..] == [] && RowsOf([u.df]) == u.df + [];
    assert At(s.store, cfg.defaultName) == [] && [] + u.df == u.df;
  }
}
