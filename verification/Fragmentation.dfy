// The broker sink's fragmentation of a result: greedy splitting by a tracked size, numbering, and the
// actual size of what is sent.

module Fragmentation {
  import opened Wrappers

  /** A record of the result, given by its JSON text. */
  type Record = string

  /** What sys.getsizeof adds to the length of an ASCII string. */
  const STR_OVERHEAD := 49

  function SizeOf(text: string): nat {
    STR_OVERHEAD + |text|
  }

  function JoinRecords(records: seq<Record>): string {
    if records == [] then ""
    else if |records| == 1 then records[0]
    else records[0] + ", " + JoinRecords(records[1..])
  }

  /** json.dumps of a list of records. */
  function DumpList(records: seq<Record>): string {
    "[" + JoinRecords(records) + "]"
  }

  /** The size of an empty fragment. */
  const EMPTY_SIZE: nat := SizeOf(DumpList([]))

  function RecordSizes(records: seq<Record>): nat {
    if records == [] then 0 else SizeOf(records[0]) + RecordSizes(records[1..])
  }

  /** The size the splitting loop keeps account of. */
  function Tracked(records: seq<Record>): nat {
    EMPTY_SIZE + RecordSizes(records)
  }

  function Flatten<T>(parts: seq<seq<T>>): seq<T> {
    if parts == [] then [] else parts[0] + Flatten(parts[1..])
  }

  lemma {:induction false} FlattenMore<T>(parts: seq<seq<T>>, last: seq<T>)
    ensures Flatten(parts + [last]) == Flatten(parts) + last
  {
    if parts == [] {
      assert parts + [last] == [last];
    } else {
      assert (parts + [last])[1..] == parts[1..] + [last];
      FlattenMore(parts[1..], last);
    }
  }

  lemma {:induction false} RecordSizesOfConcat(a: seq<Record>, b: seq<Record>)
    ensures RecordSizes(a + b) == RecordSizes(a) + RecordSizes(b)
  {
    if a == [] {
      assert a + b == b;
    } else {
      assert (a + b)[1..] == a[1..] + b;
      RecordSizesOfConcat(a[1..], b);
    }
  }

  // ---------------------------------------------------------------------------
  // Greedy splitting
  // ---------------------------------------------------------------------------

  /** Fragments of two or more records are within the limit. */
  ghost predicate Bounded(fragments: seq<seq<Record>>, limit: int) {
    forall i | 0 <= i < |fragments| && |fragments[i]| >= 2 :: Tracked(fragments[i]) <= limit
  }

  /** A new fragment is only started when the next record does not fit, and then not left empty. */
  ghost predicate Needed(fragments: seq<seq<Record>>, limit: int) {
    forall i | 0 < i < |fragments| ::
      fragments[i] != [] && Tracked(fragments[i - 1]) + SizeOf(fragments[i][0]) > limit
  }

  /** The first fragment is empty exactly when the first record does not fit on its own. */
  ghost predicate StartsEmpty(fragments: seq<seq<Record>>, data: seq<Record>, limit: int) {
    fragments != [] && fragments[0] == [] <==> data != [] && EMPTY_SIZE + SizeOf(data[0]) > limit
  }

  /** The split the loop makes: contiguous, in order, bounded and without a needless cut. */
  ghost predicate GreedySplit(fragments: seq<seq<Record>>, data: seq<Record>, limit: int) {
    && Flatten(fragments) == data
    && Bounded(fragments, limit)
    && Needed(fragments, limit)
    && StartsEmpty(fragments, data, limit)
    && (fragments != [] ==> fragments[|fragments| - 1] != [])
  }

  method SplitLargeDict(data: seq<Record>, limit: int) returns (fragments: seq<seq<Record>>)
    ensures GreedySplit(fragments, data, limit)
  {
    fragments := [];
    var current: seq<Record> := [];
    var size := EMPTY_SIZE;
    for k := 0 to |data|
      invariant k > 0 ==> current != [] && GreedySplit(fragments + [current], data[..k], limit)
      invariant k == 0 ==> fragments == [] && current == []
      invariant size == Tracked(current)
    {
      var item := data[k];
      var itemSize := SizeOf(item);
      assert data[..k + 1] == data[..k] + [item];
      if size + itemSize > limit {
        NewFragment(fragments, current, data[..k], item, limit);
        fragments := fragments + [current];
        current := [];
        size := EMPTY_SIZE;
      } else {
        SameFragment(fragments, current, data[..k], item, limit);
      }
      RecordSizesOfConcat(current, [item]);
      assert current == [] ==> current + [item] == [item];
      current := current + [item];
      size := size + itemSize;
    }
    assert data[..|data|] == data;
    if current != [] {
      fragments := fragments + [current];
    }
  }

  /** What the loop has so far: nothing yet, or a greedy split of what it has seen. */
  ghost predicate SoFar(fragments: seq<seq<Record>>, current: seq<Record>, done: seq<Record>, limit: int) {
    if done == [] then fragments == [] && current == []
    else current != [] && GreedySplit(fragments + [current], done, limit)
  }

  lemma NewFragment(fragments: seq<seq<Record>>, current: seq<Record>, done: seq<Record>, item: Record, limit: int)
    requires SoFar(fragments, current, done, limit) && Tracked(current) + SizeOf(item) > limit
    ensures GreedySplit(fragments + [current] + [[item]], done + [item], limit)
  {
    var before, after := fragments + [current], fragments + [current] + [[item]];
    FlattenMore(before, [item]);
    if done == [] {
      assert before == [[]];
      assert Flatten(before) == [] + Flatten(before[1..]);
    }
    forall i | 0 < i < |after|
      ensures after[i] != [] && Tracked(after[i - 1]) + SizeOf(after[i][0]) > limit
    {
      if i < |before| {
        assert after[i] == before[i] && after[i - 1] == before[i - 1];
      }
    }
    forall i | 0 <= i < |after| && |after[i]| >= 2 ensures Tracked(after[i]) <= limit {
      assert after[i] == before[i];
    }
  }

  lemma SameFragment(fragments: seq<seq<Record>>, current: seq<Record>, done: seq<Record>, item: Record, limit: int)
    requires SoFar(fragments, current, done, limit) && Tracked(current) + SizeOf(item) <= limit
    ensures GreedySplit(fragments + [current + [item]], done + [item], limit)
  {
    var before, after := fragments + [current], fragments + [current + [item]];
    FlattenMore(fragments, current);
    FlattenMore(fragments, current + [item]);
    RecordSizesOfConcat(current, [item]);
    if done == [] {
      assert current + [item] == [item];
      assert after == [[item]];
    }
    forall i | 0 < i < |after|
      ensures after[i] != [] && Tracked(after[i - 1]) + SizeOf(after[i][0]) > limit
    {
      assert before[i] != [] && Tracked(before[i - 1]) + SizeOf(before[i][0]) > limit;
      assert after[i][0] == before[i][0] && after[i - 1] == before[i - 1];
    }
    forall i | 0 <= i < |after| && |after[i]| >= 2 ensures Tracked(after[i]) <= limit {
      assert i < |fragments| ==> after[i] == before[i];
    }
  }

  ghost predicate WithinLimit(parts: seq<seq<Record>>, limit: int) {
    forall i | 0 <= i < |parts| :: Tracked(parts[i]) <= limit
  }

  ghost predicate EachFits(data: seq<Record>, limit: int) {
    forall i | 0 <= i < |data| :: EMPTY_SIZE + SizeOf(data[i]) <= limit
  }

  /** When every record fits on its own, every fragment is within the limit and holds something. */
  lemma GreedyIsWithinLimit(fragments: seq<seq<Record>>, data: seq<Record>, limit: int)
    requires GreedySplit(fragments, data, limit) && EachFits(data, limit)
    ensures WithinLimit(fragments, limit)
    ensures forall i | 0 <= i < |fragments| :: fragments[i] != []
  {
    forall i | 0 <= i < |fragments| ensures fragments[i] != [] && Tracked(fragments[i]) <= limit {
      assert fragments[i] != [];
      if |fragments[i]| == 1 {
        InFlatten(fragments, i);
        assert fragments[i][0] in data;
        assert RecordSizes(fragments[i]) == SizeOf(fragments[i][0]) + RecordSizes(fragments[i][1..]);
      }
    }
  }

  lemma {:induction false} InFlatten<T>(parts: seq<seq<T>>, i: nat)
    requires i < |parts|
    ensures forall x | x in parts[i] :: x in Flatten(parts)
  {
    if i > 0 {
      InFlatten(parts[1..], i - 1);
    }
  }

  lemma {:induction false} FlattenLength(parts: seq<seq<Record>>)
    requires forall i | 0 <= i < |parts| :: parts[i] != []
    ensures |Flatten(parts)| >= |parts|
  {
    if parts != [] {
      FlattenLength(parts[1..]);
    }
  }

  /** Fragments from some point of a greedy split on: every one is needed. */
  ghost predicate EachNeeded(fragments: seq<seq<Record>>, limit: int) {
    (forall i | 0 <= i < |fragments| :: fragments[i] != []) && Needed(fragments, limit)
  }

  /** Greedy stays ahead: if another split within the limit still has `behind` to cover before the point at
      which the greedy fragments begin, the greedy split needs no more fragments from there on. */
  lemma {:induction false} GreedyStaysAhead(greedy: seq<seq<Record>>, other: seq<seq<Record>>,
                                            behind: seq<Record>, limit: int)
    requires EachNeeded(greedy, limit) && WithinLimit(other, limit)
    requires Flatten(other) == behind + Flatten(greedy)
    ensures |greedy| <= |other|
    decreases |other|
  {
    FlattenLength(greedy);
    if greedy != [] && other != [] {
      var first, rest := other[0], other[1..];
      var reach, later := behind + greedy[0], Flatten(greedy[1..]);
      assert first + Flatten(rest) == reach + later;
      if |first| <= |reach| {
        assert (reach + later)[..|first|] == first == reach[..|first|];
        assert (first + Flatten(rest))[|first|..] == (reach + later)[|first|..];
        assert Flatten(rest) == reach[|first|..] + later;
        GreedyStaysAhead(greedy[1..], rest, reach[|first|..], limit);
      } else if |greedy| > 1 {
        GreedyBlocks(greedy, first, Flatten(rest), behind, limit);
      }
    }
  }

  /** A fragment that reaches past a whole greedy fragment contains it and the record that did not fit. */
  lemma GreedyBlocks(greedy: seq<seq<Record>>, first: seq<Record>, more: seq<Record>, behind: seq<Record>, limit: int)
    requires EachNeeded(greedy, limit) && |greedy| > 1
    requires first + more == behind + greedy[0] + Flatten(greedy[1..])
    requires |first| > |behind + greedy[0]|
    ensures Tracked(first) > limit
  {
    var n := |behind + greedy[0]|;
    var next := greedy[1][0];
    assert Flatten(greedy[1..]) == greedy[1] + Flatten(greedy[1..][1..]);
    assert first[..n] == behind + greedy[0] by {
      assert (first + more)[..n] == behind + greedy[0];
    }
    assert first[n] == next by {
      assert (first + more)[n] == Flatten(greedy[1..])[0];
    }
    assert first == behind + (greedy[0] + ([next] + first[n + 1..]));
    RecordSizesOfConcat(behind, greedy[0] + ([next] + first[n + 1..]));
    RecordSizesOfConcat(greedy[0], [next] + first[n + 1..]);
    RecordSizesOfConcat([next], first[n + 1..]);
    assert Tracked(greedy[0]) + SizeOf(next) > limit;
  }

  /** Greedy fragmentation is optimal: no contiguous split within the limit has fewer fragments. */
  lemma GreedyIsOptimal(fragments: seq<seq<Record>>, other: seq<seq<Record>>, data: seq<Record>, limit: int)
    requires GreedySplit(fragments, data, limit)
    requires Flatten(other) == data && WithinLimit(other, limit)
    ensures |fragments| <= |other|
  {
    OtherFits(other, limit);
    GreedyIsWithinLimit(fragments, data, limit);
    assert EachNeeded(fragments, limit);
    assert [] + Flatten(fragments) == Flatten(fragments);
    GreedyStaysAhead(fragments, other, [], limit);
  }

  /** If some split is within the limit, every record fits on its own. */
  lemma {:induction false} OtherFits(other: seq<seq<Record>>, limit: int)
    requires WithinLimit(other, limit)
    ensures EachFits(Flatten(other), limit)
  {
    if other != [] {
      forall i | 0 <= i < |other[1..]| ensures Tracked(other[1..][i]) <= limit {
        assert other[1..][i] == other[i + 1];
      }
      OtherFits(other[1..], limit);
      forall i | 0 <= i < |other[0]| ensures EMPTY_SIZE + SizeOf(other[0][i]) <= limit {
        OneOfMany(other[0], i);
      }
    }
  }

  lemma {:induction false} OneOfMany(records: seq<Record>, i: nat)
    requires i < |records|
    ensures SizeOf(records[i]) <= RecordSizes(records)
  {
    if i > 0 {
      OneOfMany(records[1..], i - 1);
    }
  }

  // ---------------------------------------------------------------------------
  // Real sizes
  // ---------------------------------------------------------------------------

  lemma {:induction false} JoinIsShorter(records: seq<Record>)
    requires records != []
    ensures |JoinRecords(records)| + 47 * |records| + 2 == RecordSizes(records)
  {
    if |records| == 1 {
      assert RecordSizes(records) == SizeOf(records[0]) + RecordSizes(records[1..]);
    } else {
      JoinIsShorter(records[1..]);
    }
  }

  /** The JSON text of a list: record behind record, with a comma and a space between them, in brackets. */
  lemma {:induction false} DumpGrows(records: seq<Record>, record: Record)
    ensures DumpList([]) == "[]" && DumpList([record]) == "[" + record + "]"
    ensures records != [] ==>
              |DumpList(records)| >= 2
              && DumpList(records + [record]) == DumpList(records)[..|DumpList(records)| - 1] + ", " + record + "]"
  {
    if records != [] {
      JoinGrows(records, record);
      var joined := JoinRecords(records);
      assert DumpList(records)[..|DumpList(records)| - 1] == "[" + joined;
      assert "[" + (joined + ", " + record) + "]" == "[" + joined + ", " + record + "]";
    }
  }

  lemma {:induction false} JoinGrows(records: seq<Record>, record: Record)
    requires records != []
    ensures JoinRecords(records + [record]) == JoinRecords(records) + ", " + record
  {
    var more := records + [record];
    assert more[0] == records[0] && more[1..] == records[1..] + [record];
    if |records| == 1 {
      assert more[1..] == [record];
    } else {
      JoinGrows(records[1..], record);
      var joined := JoinRecords(records[1..]);
      assert records[0] + ", " + (joined + ", " + record) == records[0] + ", " + joined + ", " + record;
    }
  }

  /** A payload's text is its data between what is around it: a list of records, or null for a message that has none. */
  lemma PayloadTextIs(envelope: Payload -> Envelope, p: Payload)
    ensures PayloadText(envelope, p)
         == envelope(p).before + (match p.data case Some(records) => DumpList(records) case None => "null")
            + envelope(p).after
  {
  }

  /** The tracked size dominates what the serialised fragment really takes: it counts the 49 bytes that a string has
      around it for every record, where the list has two bytes between them. */
  lemma TrackedDominatesRealSize(records: seq<Record>)
    ensures Tracked(records) == SizeOf(DumpList(records)) + if records == [] then 0 else 47 * |records| + 2
    ensures SizeOf(DumpList(records)) <= Tracked(records)
  {
    if records != [] {
      JoinIsShorter(records);
    }
  }

  /** So every fragment of two or more records is within the limit as it is sent, and a fragment that is not
      holds one record which does not fit on its own. */
  lemma RealSizesWithinLimit(fragments: seq<seq<Record>>, data: seq<Record>, limit: int, i: nat)
    requires GreedySplit(fragments, data, limit) && i < |fragments|
    requires limit >= EMPTY_SIZE
    ensures |fragments[i]| >= 2 ==> SizeOf(DumpList(fragments[i])) <= limit
    ensures SizeOf(DumpList(fragments[i])) > limit ==>
              |fragments[i]| == 1 && EMPTY_SIZE + SizeOf(fragments[i][0]) > limit
  {
    TrackedDominatesRealSize(fragments[i]);
    if |fragments[i]| == 1 {
      assert RecordSizes(fragments[i]) == SizeOf(fragments[i][0]) + RecordSizes(fragments[i][1..]);
    }
  }

  // ---------------------------------------------------------------------------
  // Payloads
  // ---------------------------------------------------------------------------

  const SIZE_LIMIT := 128 * 1024 * 1024

  /** A JSON payload. Trace timestamps and annotations travel with the first fragment only. */
  datatype Payload = Payload(failed: bool, data: Option<seq<Record>>, fragment: nat, count: nat, tagged: bool)

  function DataText(data: Option<seq<Record>>): string {
    if data.None? then "null" else DumpList(data.value)
  }

  function DataOf(payloads: seq<Payload>): seq<seq<Record>>
    requires forall i | 0 <= i < |payloads| :: payloads[i].data.Some?
  {
    seq(|payloads|, i requires 0 <= i < |payloads| => payloads[i].data.value)
  }

  ghost predicate Numbered(payloads: seq<Payload>, failed: bool, tagging: bool) {
    forall i | 0 <= i < |payloads| ::
      payloads[i].fragment == i && payloads[i].count == |payloads| && payloads[i].failed == failed
      && payloads[i].tagged == (i == 0 && tagging)
  }

  method CreateJsonPayload(failed: bool, dfJson: Option<seq<Record>>, tagging: bool) returns (payloads: seq<Payload>)
    ensures payloads != [] && Numbered(payloads, failed, tagging)
    ensures dfJson.None? ==> |payloads| == 1 && payloads[0].data == None
    ensures dfJson.Some? ==> forall i | 0 <= i < |payloads| :: payloads[i].data.Some?
    ensures dfJson.Some? ==> Flatten(DataOf(payloads)) == dfJson.value
    ensures dfJson.Some? && |DumpList(dfJson.value)| + 49 <= 0x800_0000 ==> |payloads| == 1
    ensures dfJson.Some? && |DumpList(dfJson.value)| + 49 > 0x800_0000 ==>
              GreedySplit(DataOf(payloads), dfJson.value, 0x800_0000)
  {
    var fragments: seq<Option<seq<Record>>>;
    ghost var plain: seq<seq<Record>> := [];
    if SizeOf(DataText(dfJson)) > SIZE_LIMIT {
      var split := SplitLargeDict(dfJson.value, SIZE_LIMIT);
      fragments := seq(|split|, i requires 0 <= i < |split| => Some(split[i]));
      plain := split;
      assert split != [] by {
        assert dfJson.value != [];
      }
    } else {
      fragments := [dfJson];
      if dfJson.Some? {
        plain := [dfJson.value];
        assert Flatten(plain) == dfJson.value + Flatten(plain[1..]);
      }
    }
    payloads := [];
    for i := 0 to |fragments|
      invariant |payloads| == i
      invariant forall j | 0 <= j < i ::
                  payloads[j] == Payload(failed, fragments[j], j, |fragments|, j == 0 && tagging)
    {
      payloads := payloads + [Payload(failed, fragments[i], i, |fragments|, i == 0 && tagging)];
    }
    if dfJson.Some? {
      assert DataOf(payloads) == plain;
    }
  }

  const BROKER_LIMIT := 0x1000_0000

  /** The JSON text around the data of a payload: status, description, numbering, trace and annotations. */
  datatype Envelope = Envelope(before: string, after: string)

  function PayloadText(envelope: Payload -> Envelope, p: Payload): string {
    envelope(p).before + DataText(p.data) + envelope(p).after
  }

  /** No payload is refused by the broker's size check when every record fits a fragment on its own and the
      text around the data takes no more than the other half of the broker's limit. */
  lemma PayloadsAreSendable(payloads: seq<Payload>, data: seq<Record>, envelope: Payload -> Envelope)
    requires forall i | 0 <= i < |payloads| :: payloads[i].data.Some?
    requires Flatten(DataOf(payloads)) == data
    requires SizeOf(DumpList(data)) <= SIZE_LIMIT ==> |payloads| == 1
    requires SizeOf(DumpList(data)) > SIZE_LIMIT ==> GreedySplit(DataOf(payloads), data, SIZE_LIMIT)
    requires EachFits(data, SIZE_LIMIT)
    requires forall i | 0 <= i < |payloads| ::
               |envelope(payloads[i]).before| + |envelope(payloads[i]).after| <= SIZE_LIMIT
    ensures forall i | 0 <= i < |payloads| :: SizeOf(PayloadText(envelope, payloads[i])) <= BROKER_LIMIT
  {
    forall i | 0 <= i < |payloads| ensures SizeOf(PayloadText(envelope, payloads[i])) <= BROKER_LIMIT {
      var part := DataOf(payloads)[i];
      if SizeOf(DumpList(data)) > SIZE_LIMIT {
        GreedyIsWithinLimit(DataOf(payloads), data, SIZE_LIMIT);
        TrackedDominatesRealSize(part);
        assert Tracked(DataOf(payloads)[i]) <= SIZE_LIMIT;
      } else {
        assert DataOf(payloads) == [part];
        assert Flatten([part]) == part + Flatten([part][1..]);
        assert part == data;
      }
      assert SizeOf(DumpList(part)) <= SIZE_LIMIT;
    }
  }
}
