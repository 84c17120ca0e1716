// The vector-database sink as it runs: accumulators updated in place in a dictionary.

module VdbNodes {
  import opened VdbSink
  import opened VdbDue

  class AccumulationStats {
    var msgCount: nat
    var lastInsertTime: int
    var data: seq<Frame>

    constructor (msgCount: nat, lastInsertTime: int, data: seq<Frame>)
      ensures View() == Accumulation(msgCount, lastInsertTime, data)
    {
      this.msgCount, this.lastInsertTime, this.data := msgCount, lastInsertTime, data;
    }

    function View(): Accumulation reads this {
      Accumulation(msgCount, lastInsertTime, data)
    }
  }

  class VdbTaskSink {
    const cfg: Config
    const script: nat -> bool
    var order: seq<string>
    var accumulators: map<string, AccumulationStats>
    var store: map<string, seq<Row>>
    var calls: nat

    ghost function Held(): map<string, Accumulation>
      reads this, accumulators.Values
    {
      map k | k in accumulators :: accumulators[k].View()
    }

    ghost function View(): Sink
      reads this, accumulators.Values
    {
      Sink(order, Held(), store, calls, script)
    }

    ghost predicate Distinct() reads this {
      forall k, l | k in accumulators && l in accumulators && k != l :: accumulators[k] != accumulators[l]
    }

    ghost predicate Valid()
      reads this, accumulators.Values
    {
      Distinct() && KeysOk(View())
    }

    constructor (cfg: Config, script: nat -> bool, now: int)
      ensures Valid() && this.cfg == cfg && this.script == script && fresh(accumulators.Values)
      ensures View() == NewSink(cfg, script, now)
    {
      this.cfg, this.script := cfg, script;
      order := [cfg.defaultName];
      var stats := new AccumulationStats(0, now, []);
      accumulators := map[cfg.defaultName := stats];
      store, calls := map[], 0;
    }

    /** The database takes the rows or refuses them all. */
    method InsertDataframe(key: string, rows: seq<Row>) returns (ok: bool)
      modifies this`store, this`calls
      ensures ok == script(old(calls)) && View() == Insert(old(View()), key, rows)
    {
      ok := script(calls);
      calls := calls + 1;
      if ok {
        store := store[key := At(store, key) + rows];
      }
    }

    /** One accumulator is updated in place; no other changes. */
    method Overwrite(key: string, msgCount: nat, lastInsertTime: int, data: seq<Frame>)
      requires key in accumulators && Distinct()
      modifies accumulators[key]
      ensures Held() == old(Held())[key := Accumulation(msgCount, lastInsertTime, data)]
    {
      var stats := accumulators[key];
      stats.msgCount := msgCount;
      stats.lastInsertTime := lastInsertTime;
      stats.data := data;
    }

    method ExtendAccumulator(key: string, df: Frame)
      requires key in accumulators && Distinct()
      modifies accumulators[key]
      ensures var a := old(Held())[key];
              Held() == old(Held())[key := a.(count := a.count + |df|, frames := a.frames + [df])]
    {
      var stats := accumulators[key];
      assert Held()[key] == stats.View();
      Overwrite(key, stats.msgCount + |df|, stats.lastInsertTime, stats.data + [df]);
    }

    method Accumulate(key: string, df: Frame, created: int)
      requires Valid()
      modifies this`order, this`accumulators, accumulators.Values
      ensures Valid() && View() == Append(old(View()), key, df, created)
      ensures fresh(accumulators.Values - old(accumulators.Values))
    {
      AppendKeepsKeys(View(), key, df, created);
      if key in accumulators {
        assert accumulators[key] in accumulators.Values;
        ExtendAccumulator(key, df);
      } else {
        AddAccumulator(key, df, created);
      }
    }

    method AddAccumulator(key: string, df: Frame, created: int)
      requires key !in accumulators && Distinct()
      modifies this`order, this`accumulators
      ensures Distinct() && Held() == old(Held())[key := Accumulation(|df|, created, [df])]
      ensures order == old(order) + [key]
      ensures fresh(accumulators.Values - old(accumulators.Values))
    {
      ghost var held := Held();
      var stats := new AccumulationStats(|df|, created, [df]);
      assert forall k | k in accumulators :: accumulators[k] in old(accumulators.Values);
      accumulators := accumulators[key := stats];
      order := order + [key];
      assert Held() == held[key := Accumulation(|df|, created, [df])];
    }

    /** One turn of the flush loop: nothing is due, or the rows go to the database, or it refuses them. */
    method FlushOne(key: string, now: int) returns (ok: bool)
      requires Valid() && key in accumulators
      modifies this`store, this`calls, accumulators[key]
      ensures Valid()
      ensures var a := old(Held())[key];
              if !Due(cfg, a, now) || a.frames == [] then ok && View() == old(View())
              else if old(View()).script(old(calls)) then ok && View() == Flushed(old(View()), key, now)
              else !ok && View() == Insert(old(View()), key, RowsOf(a.frames))
    {
      var stats := accumulators[key];
      assert stats in accumulators.Values;
      assert Held()[key] == stats.View();
      if stats.msgCount >= cfg.batchSize
         || (stats.lastInsertTime != -1 && now - stats.lastInsertTime >= cfg.writeInterval) {
        if stats.data != [] {
          ok := InsertDataframe(key, RowsOf(stats.data));
          if ok {
            Overwrite(key, 0, now, []);
          }
          return;
        }
      }
      return true;
    }

    /** The flush loop over the dictionary. */
    method FlushAll(now: int) returns (ok: bool)
      requires Valid()
      modifies this`store, this`calls, accumulators.Values
      ensures Valid() && (View(), ok) == FlushFrom(cfg, old(View()), 0, now)
    {
      ghost var whole := FlushFrom(cfg, View(), 0, now);
      var i := 0;
      while i < |order|
        invariant i <= |order| && Valid()
        invariant FlushFrom(cfg, View(), i, now) == whole
      {
        var key := order[i];
        assert key in View().held;
        assert accumulators[key] in accumulators.Values;
        var done := FlushOne(key, now);
        if !done {
          return false;
        }
        i := i + 1;
      }
      return true;
    }

    /** on_data past the connection check, from the extracted rows on. */
    method OnData(u: Upload) returns (ok: bool)
      requires Valid()
      modifies this, accumulators.Values
      ensures Valid() && (View(), ok) == OnUpload(cfg, old(View()), u)
      ensures fresh(accumulators.Values - old(accumulators.Values))
      ensures SinkOk(old(View())) && Taken(u) && ok ==>
                forall key | key in old(View()).held || key == Target(cfg, u) ::
                  Written(cfg, old(View()), View(), u, key)
    {
      if SinkOk(View()) {
        forall key { WrittenWhenDue(cfg, View(), u, key); }
      }
      if u.df == [] {
        return true;
      }
      if NamesDefault(u) && !u.exists_ {
        return false;
      }
      Accumulate(TargetOf(cfg, u), u.df, u.created);
      ok := FlushAll(u.now);
    }

    /** One turn of the loop at the end of the stream; a refusal is passed over. */
    method CompleteOne(key: string)
      requires Valid() && key in accumulators
      modifies this`store, this`calls
      ensures Valid()
      ensures var a := old(Held())[key];
              View() == if a.frames == [] then old(View()) else Insert(old(View()), key, RowsOf(a.frames))
    {
      var stats := accumulators[key];
      assert Held()[key] == stats.View();
      if stats.data != [] {
        var _ := InsertDataframe(key, RowsOf(stats.data));
      }
    }

    method OnCompleted()
      requires Valid()
      modifies this`store, this`calls
      ensures View() == CompleteFrom(old(View()), 0)
    {
      ghost var whole := CompleteFrom(View(), 0);
      var i := 0;
      while i < |order|
        invariant i <= |order| && Valid() && CompleteFrom(View(), i) == whole
      {
        assert order[i] in View().held;
        CompleteOne(order[i]);
        i := i + 1;
      }
    }
  }
}
