// The vector-database sink: rows are accumulated per collection and inserted in batches, by count and by
// time, into a service that may refuse any insert.

module VdbSink {
  import opened Wrappers

  type Row = string

  /** A data frame is a sequence of rows. */
  type Frame = seq<Row>

  datatype Accumulation = Accumulation(count: nat, lastInsert: int, frames: seq<Frame>)

  datatype Config = Config(defaultName: string, batchSize: int, writeInterval: int)

  /** The sink and the database behind it. The accumulator dictionary is iterated in insertion order. The
      script says whether the n-th insert succeeds. */
  datatype Sink = Sink(
    order: seq<string>,
    held: map<string, Accumulation>,
    store: map<string, seq<Row>>,      // rows in the database
    calls: nat,
    script: nat -> bool)

  function RowsOf(frames: seq<Frame>): seq<Row> {
    if frames == [] then [] else frames[0] + RowsOf(frames[1..])
  }

  function At(rows: map<string, seq<Row>>, key: string): seq<Row> {
    if key in rows then rows[key] else []
  }

  predicate Due(cfg: Config, a: Accumulation, now: int) {
    a.count >= cfg.batchSize || (a.lastInsert != -1 && now - a.lastInsert >= cfg.writeInterval)
  }

  function Insert(s: Sink, key: string, rows: seq<Row>): Sink {
    s.(calls := s.calls + 1, store := if s.script(s.calls) then s.store[key := At(s.store, key) + rows] else s.store)
  }

  /** An accumulator after its rows went into the database. */
  function Flushed(s: Sink, key: string, now: int): Sink
    requires key in s.held
  {
    Insert(s, key, RowsOf(s.held[key].frames)).(held := s.held[key := Accumulation(0, now, [])])
  }

  /** The flush loop from the i-th accumulator on; an insert that fails ends it. */
  function FlushFrom(cfg: Config, s: Sink, i: nat, now: int): (Sink, bool)
    requires i <= |s.order| && forall k | k in s.order :: k in s.held
    decreases |s.order| - i
  {
    if i == |s.order| then (s, true)
    else
      var key := s.order[i];
      var a := s.held[key];
      if !Due(cfg, a, now) || a.frames == [] then FlushFrom(cfg, s, i + 1, now)
      else if s.script(s.calls) then FlushFrom(cfg, Flushed(s, key, now), i + 1, now)
      else (Insert(s, key, RowsOf(a.frames)), false)
  }

  function Append(s: Sink, key: string, df: Frame, created: int): Sink {
    if key in s.held then
      var a := s.held[key];
      s.(held := s.held[key := a.(count := a.count + |df|, frames := a.frames + [df])])
    else
      s.(order := s.order + [key], held := s.held[key := Accumulation(|df|, created, [df])])
  }

  /** One message: the rows extracted from it, the collection it names, two clock readings, and whether the
      default collection exists in the database. */
  datatype Upload = Upload(df: Frame, target: Option<string>, now: int, created: int, exists_: bool)

  predicate NamesDefault(u: Upload) {
    u.target.None? || u.target.value == ""
  }

  function TargetOf(cfg: Config, u: Upload): string {
    if NamesDefault(u) then cfg.defaultName else u.target.value
  }

  /** The message has rows, and the collection they go to is there. */
  predicate Reaches(u: Upload) {
    u.df != [] && !(NamesDefault(u) && !u.exists_)
  }

  /** The rows of a message that reach the accumulator under a key. */
  function Contribution(cfg: Config, u: Upload, key: string): seq<Row> {
    if Reaches(u) && TargetOf(cfg, u) == key then u.df else []
  }

  /** What on_data makes of the sink, and whether it returns normally. */
  function OnUpload(cfg: Config, s: Sink, u: Upload): (Sink, bool)
    requires KeysOk(s)
  {
    if u.df == [] then (s, true)
    else if NamesDefault(u) && !u.exists_ then (s, false)
    else FlushFrom(cfg, Append(s, TargetOf(cfg, u), u.df, u.created), 0, u.now)
  }

  // ---------------------------------------------------------------------------
  // Conservation
  // ---------------------------------------------------------------------------

  ghost predicate KeysOk(s: Sink) {
    && (forall k :: k in s.order <==> k in s.held)
    && (forall i, j | 0 <= i < j < |s.order| :: s.order[i] != s.order[j])
  }

  ghost predicate CountsOk(s: Sink) {
    forall k | k in s.held :: s.held[k].count == |RowsOf(s.held[k].frames)|
  }

  function HeldRows(s: Sink, key: string): seq<Row> {
    if key in s.held then RowsOf(s.held[key].frames) else []
  }

  /** Per collection: the rows inserted followed by the rows still held. */
  function Account(s: Sink, key: string): seq<Row> {
    At(s.store, key) + HeldRows(s, key)
  }

  /** Every accumulator's msg_count is the number of rows it holds. */
  ghost predicate SinkOk(s: Sink) {
    KeysOk(s) && CountsOk(s)
  }

  lemma {:induction false} RowsOfMore(frames: seq<Frame>, df: Frame)
    ensures RowsOf(frames + [df]) == RowsOf(frames) + df
  {
    if frames == [] {
      assert frames + [df] == [df];
    } else {
      assert (frames + [df])[1..] == frames[1..] + [df];
      RowsOfMore(frames[1..], df);
    }
  }

  lemma AppendKeepsKeys(s: Sink, key: string, df: Frame, created: int)
    requires KeysOk(s)
    ensures KeysOk(Append(s, key, df, created))
  {
  }

  lemma AppendKeeps(s: Sink, at: string, df: Frame, created: int, key: string)
    requires SinkOk(s)
    ensures SinkOk(Append(s, at, df, created))
    ensures Account(Append(s, at, df, created), key) == Account(s, key) + if key == at then df else []
  {
    RowsOfMore(if at in s.held then s.held[at].frames else [], df);
    assert [] + [df] == [df];
    Regroup(At(s.store, at), HeldRows(s, at), df);
  }

  lemma Regroup(a: seq<Row>, b: seq<Row>, c: seq<Row>)
    ensures a + b + c == a + (b + c)
  {
  }

  lemma FlushOneKeeps(s: Sink, at: string, now: int, key: string)
    requires SinkOk(s) && at in s.held && s.script(s.calls)
    ensures SinkOk(Flushed(s, at, now))
    ensures Account(Flushed(s, at, now), key) == Account(s, key)
  {
  }

  lemma {:induction false} FlushKeeps(cfg: Config, s: Sink, i: nat, now: int, key: string)
    requires SinkOk(s) && i <= |s.order|
    ensures SinkOk(FlushFrom(cfg, s, i, now).0)
    ensures Account(FlushFrom(cfg, s, i, now).0, key) == Account(s, key)
    ensures FlushFrom(cfg, s, i, now).0.script == s.script
    decreases |s.order| - i
  {
    if i < |s.order| {
      var at := s.order[i];
      if !Due(cfg, s.held[at], now) || s.held[at].frames == [] {
        FlushKeeps(cfg, s, i + 1, now, key);
      } else if s.script(s.calls) {
        FlushOneKeeps(s, at, now, key);
        FlushKeeps(cfg, Flushed(s, at, now), i + 1, now, key);
      }
    }
  }

  /** The accumulators before the i-th are below the batch size. */
  ghost predicate SettledBefore(cfg: Config, s: Sink, i: nat)
    requires KeysOk(s) && i <= |s.order|
  {
    forall j | 0 <= j < i :: s.held[s.order[j]].count < cfg.batchSize
  }

  ghost predicate Settled(cfg: Config, s: Sink) {
    forall k | k in s.held :: s.held[k].count < cfg.batchSize
  }

  lemma {:induction false} FlushSettles(cfg: Config, s: Sink, i: nat, now: int)
    requires KeysOk(s) && CountsOk(s) && i <= |s.order| && cfg.batchSize >= 1
    requires SettledBefore(cfg, s, i) && FlushFrom(cfg, s, i, now).1
    ensures Settled(cfg, FlushFrom(cfg, s, i, now).0)
    decreases |s.order| - i
  {
    if i == |s.order| {
      AllSettled(cfg, s);
    } else {
      var key := s.order[i];
      if !Due(cfg, s.held[key], now) || s.held[key].frames == [] {
        OneSettled(cfg, s, i, now);
        FlushSettles(cfg, s, i + 1, now);
      } else {
        FlushedSettled(cfg, s, i, now);
        FlushSettles(cfg, Flushed(s, key, now), i + 1, now);
      }
    }
  }

  lemma AllSettled(cfg: Config, s: Sink)
    requires KeysOk(s) && SettledBefore(cfg, s, |s.order|)
    ensures Settled(cfg, s)
  {
    forall k | k in s.held ensures s.held[k].count < cfg.batchSize {
      var j :| 0 <= j < |s.order| && s.order[j] == k;
    }
  }

  lemma OneSettled(cfg: Config, s: Sink, i: nat, now: int)
    requires KeysOk(s) && CountsOk(s) && i < |s.order| && cfg.batchSize >= 1 && SettledBefore(cfg, s, i)
    requires !Due(cfg, s.held[s.order[i]], now) || s.held[s.order[i]].frames == []
    ensures SettledBefore(cfg, s, i + 1)
  {
  }

  lemma FlushedSettled(cfg: Config, s: Sink, i: nat, now: int)
    requires KeysOk(s) && CountsOk(s) && i < |s.order| && cfg.batchSize >= 1 && SettledBefore(cfg, s, i)
    ensures var s' := Flushed(s, s.order[i], now);
            KeysOk(s') && CountsOk(s') && s'.order == s.order && SettledBefore(cfg, s', i + 1)
  {
  }

  /** Every message keeps the account: nothing is lost, doubled or reordered, whether inserts fail or not,
      and after a message with rows that goes through, every accumulator is below the batch size. */
  lemma UploadKeeps(cfg: Config, s: Sink, u: Upload, key: string)
    requires SinkOk(s)
    ensures SinkOk(OnUpload(cfg, s, u).0)
    ensures OnUpload(cfg, s, u).0.script == s.script
    ensures Account(OnUpload(cfg, s, u).0, key) == Account(s, key) + Contribution(cfg, u, key)
    ensures cfg.batchSize >= 1 && OnUpload(cfg, s, u).1 && u.df != [] ==> Settled(cfg, OnUpload(cfg, s, u).0)
  {
    if Reaches(u) {
      var s' := Append(s, TargetOf(cfg, u), u.df, u.created);
      AppendKeeps(s, TargetOf(cfg, u), u.df, u.created, key);
      FlushKeeps(cfg, s', 0, u.now, key);
      if cfg.batchSize >= 1 && OnUpload(cfg, s, u).1 {
        FlushSettles(cfg, s', 0, u.now);
      }
    }
  }

  function NewSink(cfg: Config, script: nat -> bool, now: int): Sink {
    Sink([cfg.defaultName], map[cfg.defaultName := Accumulation(0, now, [])], map[], 0, script)
  }

  function Uploads(cfg: Config, s: Sink, us: seq<Upload>): Sink
    requires SinkOk(s)
    decreases |us|
  {
    if us == [] then s
    else
      UploadKeeps(cfg, s, us[0], "");
      Uploads(cfg, OnUpload(cfg, s, us[0]).0, us[1..])
  }

  /** The rows of the messages of a run that reach an accumulator under a key. */
  function Offered(cfg: Config, us: seq<Upload>, key: string): seq<Row> {
    if us == [] then [] else Contribution(cfg, us[0], key) + Offered(cfg, us[1..], key)
  }

  /** Accumulator conservation over whole runs: for any messages, clock readings and pattern of insert
      failures, what a collection has and what is held for it are together what was offered to it, in
      order, and msg_count is the held row count throughout. */
  lemma {:induction false} RunConserves(cfg: Config, s: Sink, us: seq<Upload>, key: string)
    requires SinkOk(s)
    ensures SinkOk(Uploads(cfg, s, us))
    ensures Account(Uploads(cfg, s, us), key) == Account(s, key) + Offered(cfg, us, key)
    decreases |us|
  {
    if us != [] {
      UploadKeeps(cfg, s, us[0], key);
      RunConserves(cfg, OnUpload(cfg, s, us[0]).0, us[1..], key);
      Regroup(Account(s, key), Contribution(cfg, us[0], key), Offered(cfg, us[1..], key));
    }
  }

  /** Every message of the run goes through. */
  ghost predicate FailureFree(cfg: Config, s: Sink, us: seq<Upload>)
    requires SinkOk(s)
    decreases |us|
  {
    us == []
    || (OnUpload(cfg, s, us[0]).1
        && (UploadKeeps(cfg, s, us[0], ""); FailureFree(cfg, OnUpload(cfg, s, us[0]).0, us[1..])))
  }

  /** Over a failure-free run no accumulator is ever left at or above the batch size. */
  lemma {:induction false} FailureFreeRunSettles(cfg: Config, s: Sink, us: seq<Upload>)
    requires SinkOk(s) && Settled(cfg, s) && cfg.batchSize >= 1 && FailureFree(cfg, s, us)
    ensures Settled(cfg, Uploads(cfg, s, us))
    decreases |us|
  {
    if us != [] {
      UploadKeeps(cfg, s, us[0], "");
      FailureFreeRunSettles(cfg, OnUpload(cfg, s, us[0]).0, us[1..]);
    }
  }

  // ---------------------------------------------------------------------------
  // The end of the stream
  // ---------------------------------------------------------------------------

  /** on_completed from the i-th accumulator on: failed inserts are logged and passed over. */
  function CompleteFrom(s: Sink, i: nat): Sink
    requires i <= |s.order| && forall k | k in s.order :: k in s.held
    decreases |s.order| - i
  {
    if i == |s.order| then s
    else
      CompleteFrom(CompleteOne(s, i), i + 1)
  }

  /** What completing does to one accumulator. */
  function CompleteOne(s: Sink, i: nat): Sink
    requires i < |s.order| && s.order[i] in s.held
  {
    var a := s.held[s.order[i]];
    if a.frames == [] then s else Insert(s, s.order[i], RowsOf(a.frames))
  }

  lemma OneInserted(s: Sink, i: nat, key: string)
    requires KeysOk(s) && i < |s.order|
    ensures var s' := CompleteOne(s, i);
            && s'.held == s.held && s'.order == s.order && s'.script == s.script && s'.calls >= s.calls
            && ((forall n: nat | s.calls <= n < s'.calls :: s.script(n)) ==>
                  At(s'.store, key) == At(s.store, key) + if key == s.order[i] then HeldRows(s, key) else [])
  {
  }

  /** A collection gets its held rows at the end, or the rest of it stays as it was. */
  lemma {:induction false} CompletionInserts(s: Sink, i: nat, key: string)
    requires KeysOk(s) && i <= |s.order|
    ensures CompleteFrom(s, i).held == s.held && CompleteFrom(s, i).calls >= s.calls
    ensures CompleteFrom(s, i).script == s.script
    ensures (forall n: nat | s.calls <= n < CompleteFrom(s, i).calls :: s.script(n)) ==>
              At(CompleteFrom(s, i).store, key)
              == At(s.store, key) + if key in s.order[i..] then HeldRows(s, key) else []
    decreases |s.order| - i
  {
    if i < |s.order| {
      OneInserted(s, i, key);
      CompletionInserts(CompleteOne(s, i), i + 1, key);
      KeyFrom(s, i, key);
    }
  }

  /** A key is at one place of the order only. */
  lemma KeyFrom(s: Sink, i: nat, key: string)
    requires KeysOk(s) && i < |s.order|
    ensures key in s.order[i..] <==> key == s.order[i] || key in s.order[i + 1..]
    ensures key == s.order[i] ==> key !in s.order[i + 1..]
  {
    assert s.order[i..] == [s.order[i]] + s.order[i + 1..];
  }

  /** After on_completed with no failed insert, every row offered in the run is in its collection, once and
      in order. */
  lemma CompletedRunInsertsAll(cfg: Config, s: Sink, us: seq<Upload>, key: string)
    requires SinkOk(s) && Account(s, key) == []
    requires SinkOk(Uploads(cfg, s, us))
    requires var t := Uploads(cfg, s, us); forall n: nat | t.calls <= n < CompleteFrom(t, 0).calls :: t.script(n)
    ensures At(CompleteFrom(Uploads(cfg, s, us), 0).store, key) == Offered(cfg, us, key)
  {
    var t := Uploads(cfg, s, us);
    RunConserves(cfg, s, us, key);
    CompletionInserts(t, 0, key);
    assert t.order[0..] == t.order;
  }
}
