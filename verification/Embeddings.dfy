// Embedding of extracted rows: each content type is picked out, embedded in batches and put behind the last,
// and what is left over follows.

module Embeddings {
  import opened Wrappers

  datatype Kind = Text | Structured | Image | Audio | Video | OtherKind

  type Vector = seq<real>

  datatype Row = Row(id: nat, kind: Kind, text: Option<string>, table: Option<string>, caption: Option<string>,
                     transcript: Option<string>, embedding: Option<Vector>, embedded: bool)

  datatype EmbedError = ServiceFailed | ZeroBatch | TooFewEmbeddings

  /** Answers a batch of prompts, or fails for the whole batch. */
  type Service = seq<string> -> Result<seq<Vector>, EmbedError>

  /** The supported types in the order in which they are handled; a video has no content yet. */
  const KINDS: seq<Kind> := [Text, Structured, Image, Audio, Video]

  predicate IsSpace(c: char) {
    var code := c as int;
    || 0x09 <= code <= 0x0d || 0x1c <= code <= 0x20 || code in {0x85, 0xa0, 0x1680, 0x202f, 0x205f, 0x3000}
    || 0x2000 <= code <= 0x200a || 0x2028 <= code <= 0x2029
  }

  predicate Blank(text: string) {
    forall k :: 0 <= k < |text| ==> IsSpace(text[k])
  }

  /** The content of a row, by its type. */
  function Content(row: Row): Option<string> {
    match row.kind
    case Text => row.text
    case Structured => row.table
    case Image => row.caption
    case Audio => row.transcript
    case _ => None
  }

  predicate Embeds(row: Row) {
    Content(row).Some? && !Blank(Content(row).value)
  }

  /** The rows of a type that have something to embed. */
  function Select(rows: seq<Row>, kind: Kind): seq<Row> {
    if rows == [] then []
    else (if rows[0].kind == kind && Embeds(rows[0]) then [rows[0]] else []) + Select(rows[1..], kind)
  }

  /** The rows without an embedding, with their flag cleared. */
  function LeftOver(rows: seq<Row>): seq<Row> {
    if rows == [] then []
    else (if Embeds(rows[0]) then [] else [rows[0].(embedded := false)]) + LeftOver(rows[1..])
  }

  function Prompts(rows: seq<Row>): seq<string> {
    seq(|rows|, k requires 0 <= k < |rows| => Content(rows[k]).GetOr(""))
  }

  function Batches(prompts: seq<string>, size: nat): seq<seq<string>>
    requires size > 0
  {
    if |prompts| == 0 then []
    else if |prompts| <= size then [prompts]
    else [prompts[..size]] + Batches(prompts[size..], size)
  }

  /** The embeddings of all batches, or the failure of the first that fails. */
  function Answers(batches: seq<seq<string>>, service: Service, done: seq<Vector>): Result<seq<Vector>, EmbedError>
    decreases |batches|
  {
    if batches == [] then Ok(done)
    else match service(batches[0])
         case Ok(vectors) => Answers(batches[1..], service, done + vectors)
         case Err(error) => Err(error)
  }

  /** Row k gets embedding k. */
  function WithEmbeddings(rows: seq<Row>, vectors: seq<Vector>): seq<Row>
    requires |rows| <= |vectors|
  {
    seq(|rows|, k requires 0 <= k < |rows| => rows[k].(embedding := Some(vectors[k]), embedded := true))
  }

  function EmbedSelected(rows: seq<Row>, size: int, service: Service): Result<seq<Row>, EmbedError> {
    if rows == [] then Ok([])
    else if size == 0 then Err(ZeroBatch)
    else if size < 0 then Err(TooFewEmbeddings)
    else match Answers(Batches(Prompts(rows), size), service, [])
         case Ok(vectors) => if |vectors| < |rows| then Err(TooFewEmbeddings) else Ok(WithEmbeddings(rows, vectors))
         case Err(error) => Err(error)
  }

  /** The rows of the given types with their embeddings, behind what is done. */
  function EmbedKinds(rows: seq<Row>, kinds: seq<Kind>, size: int, service: Service, done: seq<Row>)
      : Result<seq<Row>, EmbedError>
    decreases |kinds|
  {
    if kinds == [] then Ok(done)
    else match EmbedSelected(Select(rows, kinds[0]), size, service)
         case Ok(added) => EmbedKinds(rows, kinds[1..], size, service, done + added)
         case Err(error) => Err(error)
  }

  // ---------------------------------------------------------------------------
  // The loops
  // ---------------------------------------------------------------------------

  /** With a negative size there is no batch at all. */
  method GenerateBatches(prompts: seq<string>, size: int) returns (batches: seq<seq<string>>)
    requires size != 0
    ensures batches == if size < 0 then [] else Batches(prompts, size)
  {
    batches := [];
    if size < 0 {
      return;
    }
    var i := 0;
    AllLeft(prompts, size);
    while i < |prompts|
      invariant 0 <= i
      invariant Batches(prompts, size) == batches + Rest(prompts, i, size)
      decreases |prompts| - i
    {
      var end := if i + size < |prompts| then i + size else |prompts|;
      TakeBatch(prompts, i, size, batches);
      batches := batches + [prompts[i..end]];
      i := i + size;
    }
  }

  /** The batches that start at prompt i or behind it. */
  function Rest(prompts: seq<string>, i: nat, size: nat): seq<seq<string>>
    requires size > 0
  {
    if i < |prompts| then Batches(prompts[i..], size) else []
  }

  lemma NextBatch(prompts: seq<string>, i: nat, size: nat)
    requires i < |prompts| && size > 0
    ensures var end := if i + size < |prompts| then i + size else |prompts|;
            Rest(prompts, i, size) == [prompts[i..end]] + Rest(prompts, i + size, size)
  {
    if i + size < |prompts| {
      assert prompts[i..][..size] == prompts[i..i + size];
      assert prompts[i..][size..] == prompts[i + size..];
    } else {
      assert prompts[i..|prompts|] == prompts[i..];
      assert Batches(prompts[i..], size) == [prompts[i..]] + [];
    }
  }

  lemma AllLeft(prompts: seq<string>, size: nat)
    requires size > 0
    ensures Batches(prompts, size) == Rest(prompts, 0, size)
  {
    assert prompts[0..] == prompts;
  }

  lemma TakeBatch(prompts: seq<string>, i: nat, size: nat, batches: seq<seq<string>>)
    requires i < |prompts| && size > 0
    ensures var end := if i + size < |prompts| then i + size else |prompts|;
            batches + [prompts[i..end]] + Rest(prompts, i + size, size) == batches + Rest(prompts, i, size)
  {
    NextBatch(prompts, i, size);
  }

  /** All batches are sent, and their answers joined in order. */
  method AsyncRunner(batches: seq<seq<string>>, service: Service) returns (r: Result<seq<Vector>, EmbedError>)
    ensures r == Answers(batches, service, [])
  {
    var vectors := [];
    for i := 0 to |batches|
      invariant Answers(batches, service, []) == Answers(batches[i..], service, vectors)
    {
      assert batches[i..][1..] == batches[i + 1..];
      match service(batches[i])
      case Err(error) =>
        return Err(error);
      case Ok(answer) =>
        vectors := vectors + answer;
    }
    return Ok(vectors);
  }

  method AddEmbeddings(rows: seq<Row>, vectors: seq<Vector>) returns (r: Result<seq<Row>, EmbedError>)
    ensures r == if |vectors| < |rows| then Err(TooFewEmbeddings) else Ok(WithEmbeddings(rows, vectors))
  {
    var out := [];
    for i := 0 to |rows|
      invariant i <= |vectors| && |out| == i
      invariant forall k :: 0 <= k < i ==> out[k] == rows[k].(embedding := Some(vectors[k]), embedded := true)
    {
      if i >= |vectors| {
        return Err(TooFewEmbeddings);
      }
      out := out + [rows[i].(embedding := Some(vectors[i]), embedded := true)];
    }
    assert out == WithEmbeddings(rows, vectors);
    return Ok(out);
  }

  /** The embedding of the selected rows of one type. */
  method EmbedRows(rows: seq<Row>, size: int, service: Service) returns (r: Result<seq<Row>, EmbedError>)
    ensures r == EmbedSelected(rows, size, service)
  {
    if rows == [] {
      return Ok([]);
    }
    if size == 0 {
      return Err(ZeroBatch);
    }
    var batches := GenerateBatches(Prompts(rows), size);
    var vectors := AsyncRunner(batches, service);
    if vectors.Err? {
      return Err(vectors.error);
    }
    r := AddEmbeddings(rows, vectors.value);
  }

  /** The stage's function. With a service that answers prompt by prompt it is the pointwise map, arranged by
      type, at every positive batch size. */
  method GenerateTextEmbeddings(rows: seq<Row>, size: int, service: Service, ghost embed: string -> Vector)
      returns (r: Result<seq<Row>, EmbedError>)
    ensures r == match EmbedKinds(rows, KINDS, size, service, [])
                 case Ok(out) => Ok(out + LeftOver(rows))
                 case Err(error) => Err(error)
    ensures size > 0 && PromptByPrompt(service, embed) ==> r == Ok(Arranged(Pointwise(rows, embed)))
    ensures size > 0 && EachByItself(service, embed) ==> r == Ok(Grouped(rows, embed))
  {
    if size > 0 {
      WholeResult(rows, size, service, embed);
    }
    if rows == [] {
      NothingToEmbed(KINDS, size, service, []);
      return Ok([]);
    }
    var out := [];
    for i := 0 to |KINDS|
      invariant EmbedKinds(rows, KINDS, size, service, []) == EmbedKinds(rows, KINDS[i..], size, service, out)
    {
      assert KINDS[i..][1..] == KINDS[i + 1..];
      var added := EmbedRows(Select(rows, KINDS[i]), size, service);
      if added.Err? {
        return Err(added.error);
      }
      out := out + added.value;
    }
    return Ok(out + LeftOver(rows));
  }

  lemma {:induction false} NothingToEmbed(kinds: seq<Kind>, size: int, service: Service, done: seq<Row>)
    ensures EmbedKinds([], kinds, size, service, done) == Ok(done)
    decreases |kinds|
  {
    if kinds != [] {
      assert done + [] == done;
      NothingToEmbed(kinds[1..], size, service, done);
    }
  }

  // ---------------------------------------------------------------------------
  // The pointwise map
  // ---------------------------------------------------------------------------

  /** What the embedding of a row on its own is. */
  function Embedded(row: Row, embed: string -> Vector): Row {
    if Embeds(row) then row.(embedding := Some(embed(Content(row).value)), embedded := true)
    else row.(embedded := false)
  }

  function Pointwise(rows: seq<Row>, embed: string -> Vector): seq<Row> {
    if rows == [] then [] else [Embedded(rows[0], embed)] + Pointwise(rows[1..], embed)
  }

  function Vectors(prompts: seq<string>, embed: string -> Vector): seq<Vector> {
    if prompts == [] then [] else [embed(prompts[0])] + Vectors(prompts[1..], embed)
  }

  function Joined(batches: seq<seq<string>>): seq<string> {
    if batches == [] then [] else batches[0] + Joined(batches[1..])
  }

  /** The batches joined are the prompts; all but the last are full, and the last is not empty. */
  lemma {:induction false} BatchesCut(prompts: seq<string>, size: nat)
    requires size > 0
    ensures Joined(Batches(prompts, size)) == prompts
    ensures forall k :: 0 <= k < |Batches(prompts, size)| - 1 ==> |Batches(prompts, size)[k]| == size
    ensures Batches(prompts, size) != [] ==> 0 < |Batches(prompts, size)[|Batches(prompts, size)| - 1]| <= size
    decreases |prompts|
  {
    if |prompts| > size {
      BatchesCut(prompts[size..], size);
      assert Batches(prompts, size)[1..] == Batches(prompts[size..], size);
    } else if |prompts| > 0 {
      assert Batches(prompts, size)[1..] == [] && prompts + [] == prompts;
    }
  }

  /** The service answers every prompt by itself, whatever batch it is in. */
  ghost predicate PromptByPrompt(service: Service, embed: string -> Vector) {
    forall batch :: service(batch) == Ok(Vectors(batch, embed))
  }

  lemma {:induction false} VectorsSplit(a: seq<string>, b: seq<string>, embed: string -> Vector)
    ensures Vectors(a + b, embed) == Vectors(a, embed) + Vectors(b, embed)
  {
    if a == [] {
      assert a + b == b;
    } else {
      assert (a + b)[1..] == a[1..] + b;
      VectorsSplit(a[1..], b, embed);
    }
  }

  lemma {:induction false} BatchingIsInvisible(prompts: seq<string>, size: nat, service: Service,
                                               embed: string -> Vector, done: seq<Vector>)
    requires size > 0 && PromptByPrompt(service, embed)
    ensures Answers(Batches(prompts, size), service, done) == Ok(done + Vectors(prompts, embed))
    decreases |prompts|
  {
    assert done + [] == done;
    if |prompts| > size {
      var first, rest := prompts[..size], prompts[size..];
      assert Batches(prompts, size)[1..] == Batches(rest, size);
      assert service(first) == Ok(Vectors(first, embed));
      BatchingIsInvisible(rest, size, service, embed, done + Vectors(first, embed));
      VectorsSplit(first, rest, embed);
      assert first + rest == prompts;
      assert done + (Vectors(first, embed) + Vectors(rest, embed))
          == done + Vectors(first, embed) + Vectors(rest, embed);
    } else if |prompts| > 0 {
      assert Batches(prompts, size)[1..] == [];
      assert service(prompts) == Ok(Vectors(prompts, embed));
    }
  }

  lemma {:induction false} SelectedPointwise(rows: seq<Row>, embed: string -> Vector)
    requires forall k :: 0 <= k < |rows| ==> Embeds(rows[k])
    ensures |Vectors(Prompts(rows), embed)| == |rows|
    ensures WithEmbeddings(rows, Vectors(Prompts(rows), embed)) == Pointwise(rows, embed)
  {
    if rows != [] {
      SelectedPointwise(rows[1..], embed);
      assert Prompts(rows)[1..] == Prompts(rows[1..]);
      var vectors := Vectors(Prompts(rows), embed);
      assert vectors[1..] == Vectors(Prompts(rows[1..]), embed);
      assert WithEmbeddings(rows, vectors)
          == [WithEmbeddings(rows, vectors)[0]] + WithEmbeddings(rows[1..], vectors[1..]);
    }
  }

  lemma {:induction false} SelectEmbeds(rows: seq<Row>, kind: Kind)
    ensures forall k :: 0 <= k < |Select(rows, kind)| ==> Embeds(Select(rows, kind)[k])
  {
    if rows != [] {
      SelectEmbeds(rows[1..], kind);
    }
  }

  /** Selecting commutes with the pointwise map, which keeps a row's type and content. */
  lemma {:induction false} SelectPointwise(rows: seq<Row>, kind: Kind, embed: string -> Vector)
    ensures Select(Pointwise(rows, embed), kind) == Pointwise(Select(rows, kind), embed)
  {
    if rows != [] {
      SelectPointwise(rows[1..], kind, embed);
      assert Pointwise(rows, embed)[1..] == Pointwise(rows[1..], embed);
      if rows[0].kind == kind && Embeds(rows[0]) {
        assert Select(rows, kind)[1..] == Select(rows[1..], kind);
      } else {
        assert Select(rows, kind) == Select(rows[1..], kind);
      }
    }
  }

  lemma {:induction false} LeftOverPointwise(rows: seq<Row>, embed: string -> Vector)
    ensures LeftOver(Pointwise(rows, embed)) == LeftOver(rows)
  {
    if rows != [] {
      LeftOverPointwise(rows[1..], embed);
      assert Pointwise(rows, embed)[1..] == Pointwise(rows[1..], embed);
    }
  }

  /** All rows of the given types that embed, type by type. */
  function SelectAll(rows: seq<Row>, kinds: seq<Kind>): seq<Row> {
    if kinds == [] then [] else Select(rows, kinds[0]) + SelectAll(rows, kinds[1..])
  }

  /** The rows grouped by type, with those that do not embed at the end. */
  function Arranged(rows: seq<Row>): seq<Row> {
    SelectAll(rows, KINDS) + LeftOver(rows)
  }

  lemma {:induction false} KindsEmbedPointwise(rows: seq<Row>, kinds: seq<Kind>, size: nat, service: Service,
                                               embed: string -> Vector, done: seq<Row>)
    requires size > 0 && PromptByPrompt(service, embed)
    ensures EmbedKinds(rows, kinds, size, service, done) == Ok(done + SelectAll(Pointwise(rows, embed), kinds))
    decreases |kinds|
  {
    if kinds == [] {
      assert done + [] == done;
    } else {
      var first := FirstKindEmbeds(rows, kinds, size, service, embed, done);
      KindsEmbedPointwise(rows, kinds[1..], size, service, embed, done + first);
    }
  }

  lemma FirstKindEmbeds(rows: seq<Row>, kinds: seq<Kind>, size: nat, service: Service, embed: string -> Vector,
                        done: seq<Row>) returns (first: seq<Row>)
    requires size > 0 && PromptByPrompt(service, embed) && kinds != []
    ensures EmbedKinds(rows, kinds, size, service, done) == EmbedKinds(rows, kinds[1..], size, service, done + first)
    ensures done + SelectAll(Pointwise(rows, embed), kinds)
         == done + first + SelectAll(Pointwise(rows, embed), kinds[1..])
  {
    first := Pointwise(Select(rows, kinds[0]), embed);
    SelectedEmbedPointwise(rows, kinds[0], size, service, embed);
    SelectPointwise(rows, kinds[0], embed);
    assert done + (first + SelectAll(Pointwise(rows, embed), kinds[1..]))
        == done + first + SelectAll(Pointwise(rows, embed), kinds[1..]);
  }

  lemma SelectedEmbedPointwise(rows: seq<Row>, kind: Kind, size: nat, service: Service, embed: string -> Vector)
    requires size > 0 && PromptByPrompt(service, embed)
    ensures EmbedSelected(Select(rows, kind), size, service) == Ok(Pointwise(Select(rows, kind), embed))
  {
    var selected := Select(rows, kind);
    SelectEmbeds(rows, kind);
    SelectedPointwise(selected, embed);
    BatchingIsInvisible(Prompts(selected), size, service, embed, []);
    assert [] + Vectors(Prompts(selected), embed) == Vectors(Prompts(selected), embed);
  }

  /** For every batch size and every service that answers prompt by prompt, the result is the pointwise map,
      arranged by type; so the batch size makes no difference. */
  lemma EmbeddingIsPointwise(rows: seq<Row>, size: nat, service: Service, embed: string -> Vector)
    requires size > 0 && PromptByPrompt(service, embed)
    ensures EmbedKinds(rows, KINDS, size, service, []) == Ok(SelectAll(Pointwise(rows, embed), KINDS))
    ensures SelectAll(Pointwise(rows, embed), KINDS) + LeftOver(rows) == Arranged(Pointwise(rows, embed))
    ensures multiset(Arranged(Pointwise(rows, embed))) == multiset(Pointwise(rows, embed))
    ensures Pointwise(rows, embed) == AllTreated(rows, embed)
  {
    PointwiseIsTreated(rows, embed);
    KindsEmbedPointwise(rows, KINDS, size, service, embed, []);
    assert [] + SelectAll(Pointwise(rows, embed), KINDS) == SelectAll(Pointwise(rows, embed), KINDS);
    LeftOverPointwise(rows, embed);
    FlagsCleared(rows, embed);
    ArrangedIsPermutation(Pointwise(rows, embed));
  }

  // ---------------------------------------------------------------------------
  // What becomes of a row
  // ---------------------------------------------------------------------------

  /** The service gives for every batch the embeddings of its prompts, one by one. */
  ghost predicate EachByItself(service: Service, embed: string -> Vector) {
    forall batch :: service(batch) == Ok(seq(|batch|, k requires 0 <= k < |batch| => embed(batch[k])))
  }

  /** There is more to the text than white space. */
  predicate Says(text: Option<string>) {
    text.Some? && exists k :: 0 <= k < |text.value| && !IsSpace(text.value[k])
  }

  function WithVector(row: Row, text: Option<string>, embed: string -> Vector): Row {
    if Says(text) then row.(embedding := Some(embed(text.value)), embedded := true) else row.(embedded := false)
  }

  /** A text row is embedded by its text, a structured one by its table, an image by its caption, an audio by its
      transcript. A row without any, and one of another type, keeps the embedding it has and loses its flag. */
  function Treated(row: Row, embed: string -> Vector): Row {
    match row.kind
    case Text => WithVector(row, row.text, embed)
    case Structured => WithVector(row, row.table, embed)
    case Image => WithVector(row, row.caption, embed)
    case Audio => WithVector(row, row.transcript, embed)
    case _ => row.(embedded := false)
  }

  /** Where a row comes in the result. */
  function Group(row: Row): nat {
    if row.kind.Text? && Says(row.text) then 0
    else if row.kind.Structured? && Says(row.table) then 1
    else if row.kind.Image? && Says(row.caption) then 2
    else if row.kind.Audio? && Says(row.transcript) then 3
    else 4
  }

  /** The rows of a group, in their order. */
  function InGroup(rows: seq<Row>, group: nat, embed: string -> Vector): seq<Row> {
    if rows == [] then []
    else (if Group(rows[0]) == group then [Treated(rows[0], embed)] else []) + InGroup(rows[1..], group, embed)
  }

  /** Text rows, structured rows, images, audios, and the rest. */
  function Grouped(rows: seq<Row>, embed: string -> Vector): seq<Row> {
    InGroup(rows, 0, embed) + InGroup(rows, 1, embed) + InGroup(rows, 2, embed) + InGroup(rows, 3, embed)
    + InGroup(rows, 4, embed)
  }

  function AllTreated(rows: seq<Row>, embed: string -> Vector): seq<Row> {
    seq(|rows|, k requires 0 <= k < |rows| => Treated(rows[k], embed))
  }

  lemma {:induction false} VectorsAre(prompts: seq<string>, embed: string -> Vector)
    ensures Vectors(prompts, embed) == seq(|prompts|, k requires 0 <= k < |prompts| => embed(prompts[k]))
  {
    if prompts != [] {
      VectorsAre(prompts[1..], embed);
    }
  }

  lemma ItselfIsPromptByPrompt(service: Service, embed: string -> Vector)
    requires EachByItself(service, embed)
    ensures PromptByPrompt(service, embed)
  {
    forall batch ensures service(batch) == Ok(Vectors(batch, embed)) {
      VectorsAre(batch, embed);
    }
  }

  lemma EmbeddedIsTreated(row: Row, embed: string -> Vector)
    ensures Embedded(row, embed) == Treated(row, embed)
    ensures Embeds(row) <==> Group(row) < 4
    ensures (Group(row) == 0 <==> row.kind.Text? && Embeds(row))
         && (Group(row) == 1 <==> row.kind.Structured? && Embeds(row))
         && (Group(row) == 2 <==> row.kind.Image? && Embeds(row))
         && (Group(row) == 3 <==> row.kind.Audio? && Embeds(row))
    ensures Embeds(Embedded(row, embed)) == Embeds(row) && row.kind == Embedded(row, embed).kind
    ensures row.kind.Video? ==> !Embeds(row)
  {
  }

  lemma {:induction false} SelectedIsInGroup(rows: seq<Row>, kind: Kind, group: nat, embed: string -> Vector)
    requires (kind, group) in {(Text, 0), (Structured, 1), (Image, 2), (Audio, 3)}
    ensures Select(Pointwise(rows, embed), kind) == InGroup(rows, group, embed)
  {
    if rows != [] {
      EmbeddedIsTreated(rows[0], embed);
      SelectedIsInGroup(rows[1..], kind, group, embed);
      assert Pointwise(rows, embed)[1..] == Pointwise(rows[1..], embed);
    }
  }

  lemma {:induction false} LeftOverIsInGroup(rows: seq<Row>, embed: string -> Vector)
    ensures LeftOver(rows) == InGroup(rows, 4, embed)
  {
    if rows != [] {
      EmbeddedIsTreated(rows[0], embed);
      LeftOverIsInGroup(rows[1..], embed);
    }
  }

  lemma {:induction false} NoVideo(rows: seq<Row>)
    ensures Select(rows, Video) == []
  {
    if rows != [] {
      NoVideo(rows[1..]);
    }
  }

  lemma AllKinds(rows: seq<Row>)
    ensures SelectAll(rows, KINDS)
         == Select(rows, Text) + Select(rows, Structured) + Select(rows, Image) + Select(rows, Audio)
  {
    NoVideo(rows);
    FirstOfKinds(rows, Video, []);
    FirstOfKinds(rows, Audio, [Video]);
    FirstOfKinds(rows, Image, [Audio, Video]);
    FirstOfKinds(rows, Structured, [Image, Audio, Video]);
    FirstOfKinds(rows, Text, [Structured, Image, Audio, Video]);
  }

  lemma FirstOfKinds(rows: seq<Row>, kind: Kind, kinds: seq<Kind>)
    ensures SelectAll(rows, [kind] + kinds) == Select(rows, kind) + SelectAll(rows, kinds)
  {
    assert ([kind] + kinds)[1..] == kinds;
  }

  /** The pointwise map, arranged by type, are the treated rows: those with a text, a table, a caption and a
      transcript, and then the rest, each in their order. */
  lemma ArrangedInGroups(rows: seq<Row>, embed: string -> Vector)
    ensures Arranged(Pointwise(rows, embed)) == Grouped(rows, embed)
  {
    AllKinds(Pointwise(rows, embed));
    SelectedIsInGroup(rows, Text, 0, embed);
    SelectedIsInGroup(rows, Structured, 1, embed);
    SelectedIsInGroup(rows, Image, 2, embed);
    SelectedIsInGroup(rows, Audio, 3, embed);
    LeftOverPointwise(rows, embed);
    LeftOverIsInGroup(rows, embed);
  }

  lemma {:induction false} PointwiseIsTreated(rows: seq<Row>, embed: string -> Vector)
    ensures Pointwise(rows, embed) == AllTreated(rows, embed)
  {
    if rows != [] {
      EmbeddedIsTreated(rows[0], embed);
      PointwiseIsTreated(rows[1..], embed);
    }
  }

  /** What the stage's function comes to with the left over rows behind. */
  lemma WholeResult(rows: seq<Row>, size: nat, service: Service, embed: string -> Vector)
    requires size > 0
    ensures var r := EmbedKinds(rows, KINDS, size, service, []);
            && (PromptByPrompt(service, embed) ==>
                  r.Ok? && r.value + LeftOver(rows) == Arranged(Pointwise(rows, embed)))
            && (EachByItself(service, embed) ==> r.Ok? && r.value + LeftOver(rows) == Grouped(rows, embed))
  {
    if EachByItself(service, embed) {
      ItselfIsPromptByPrompt(service, embed);
      ArrangedInGroups(rows, embed);
    }
    if PromptByPrompt(service, embed) {
      EmbeddingIsPointwise(rows, size, service, embed);
    }
  }

  /** Every row comes out once, and treated as its type asks for. */
  lemma EveryRowIsTreated(rows: seq<Row>, embed: string -> Vector)
    ensures multiset(Grouped(rows, embed)) == multiset(AllTreated(rows, embed))
  {
    ArrangedInGroups(rows, embed);
    FlagsCleared(rows, embed);
    ArrangedIsPermutation(Pointwise(rows, embed));
    PointwiseIsTreated(rows, embed);
  }

  lemma {:induction false} SomeSelected(rows: seq<Row>, kind: Kind)
    ensures Select(rows, kind) != [] <==> exists k :: 0 <= k < |rows| && rows[k].kind == kind && Embeds(rows[k])
  {
    if rows != [] {
      SomeSelected(rows[1..], kind);
      if k :| 0 <= k < |rows| && rows[k].kind == kind && Embeds(rows[k]) {
        assert k > 0 ==> rows[1..][k - 1] == rows[k];
      }
    }
  }

  lemma {:induction false} BadSizeFailsFrom(rows: seq<Row>, kinds: seq<Kind>, size: int, service: Service,
                                            done: seq<Row>)
    requires size <= 0
    ensures EmbedKinds(rows, kinds, size, service, done)
         == if SelectAll(rows, kinds) == [] then Ok(done) else Err(if size == 0 then ZeroBatch else TooFewEmbeddings)
    decreases |kinds|
  {
    if kinds != [] && Select(rows, kinds[0]) == [] {
      assert done + [] == done;
      BadSizeFailsFrom(rows, kinds[1..], size, service, done);
    }
  }

  /** Without a positive batch size the embedding fails exactly if there is a row to embed. */
  lemma BadSizeFails(rows: seq<Row>, size: int, service: Service)
    requires size <= 0
    ensures EmbedKinds(rows, KINDS, size, service, [])
         == if exists k :: 0 <= k < |rows| && Group(rows[k]) < 4
            then Err(if size == 0 then ZeroBatch else TooFewEmbeddings) else Ok([])
  {
    BadSizeFailsFrom(rows, KINDS, size, service, []);
    AllKinds(rows);
    SomeSelected(rows, Text);
    SomeSelected(rows, Structured);
    SomeSelected(rows, Image);
    SomeSelected(rows, Audio);
    forall k | 0 <= k < |rows| ensures Group(rows[k]) < 4 <==> Embeds(rows[k]) {
      EmbeddedIsTreated(rows[k], s => []);
    }
  }

  /** A text with a visible ASCII character says something; one of spaces, tabs and line ends does not. */
  lemma VisibleTextSays(text: string)
    ensures (exists k :: 0 <= k < |text| && '!' <= text[k] <= '~') ==> Says(Some(text))
    ensures (forall k :: 0 <= k < |text| ==> text[k] in " \t\n\r") ==> !Says(Some(text))
    ensures !Says(None)
  {
    if k :| 0 <= k < |text| && '!' <= text[k] <= '~' {
      assert !IsSpace(text[k]);
    }
  }

  // ---------------------------------------------------------------------------
  // Arranging is a permutation
  // ---------------------------------------------------------------------------

  /** The flag of every row that does not embed is cleared. */
  ghost predicate Cleared(rows: seq<Row>) {
    forall k :: 0 <= k < |rows| && !Embeds(rows[k]) ==> !rows[k].embedded
  }

  lemma {:induction false} FlagsCleared(rows: seq<Row>, embed: string -> Vector)
    ensures Cleared(Pointwise(rows, embed))
  {
    if rows != [] {
      FlagsCleared(rows[1..], embed);
    }
  }

  function Occurrences(rows: seq<Row>, row: Row): nat {
    if rows == [] then 0 else (if rows[0] == row then 1 else 0) + Occurrences(rows[1..], row)
  }

  lemma {:induction false} OccurrencesSum(a: seq<Row>, b: seq<Row>, row: Row)
    ensures Occurrences(a + b, row) == Occurrences(a, row) + Occurrences(b, row)
  {
    if a == [] {
      assert a + b == b;
    } else {
      assert (a + b)[1..] == a[1..] + b;
      OccurrencesSum(a[1..], b, row);
    }
  }

  lemma {:induction false} OccurrencesAre(rows: seq<Row>, row: Row)
    ensures multiset(rows)[row] == Occurrences(rows, row)
  {
    if rows != [] {
      OccurrencesAre(rows[1..], row);
      assert rows == [rows[0]] + rows[1..];
    }
  }

  lemma {:induction false} SelectedOccurrences(rows: seq<Row>, kind: Kind, row: Row)
    ensures Occurrences(Select(rows, kind), row) ==
              if row.kind == kind && Embeds(row) then Occurrences(rows, row) else 0
  {
    if rows != [] {
      SelectedOccurrences(rows[1..], kind, row);
      if rows[0].kind == kind && Embeds(rows[0]) {
        assert Select(rows, kind)[1..] == Select(rows[1..], kind);
      } else {
        assert Select(rows, kind) == Select(rows[1..], kind);
      }
    }
  }

  lemma {:induction false} LeftOverOccurrences(rows: seq<Row>, row: Row)
    requires Cleared(rows)
    ensures Occurrences(LeftOver(rows), row) == if Embeds(row) then 0 else Occurrences(rows, row)
  {
    if rows != [] {
      LeftOverOccurrences(rows[1..], row);
      if Embeds(rows[0]) {
        assert LeftOver(rows) == LeftOver(rows[1..]);
      } else {
        assert rows[0].(embedded := false) == rows[0];
        assert LeftOver(rows) == [rows[0]] + LeftOver(rows[1..]);
      }
    }
  }

  lemma {:induction false} SelectedAllOccurrences(rows: seq<Row>, kinds: seq<Kind>, row: Row)
    requires forall j, k :: 0 <= j < k < |kinds| ==> kinds[j] != kinds[k]
    ensures Occurrences(SelectAll(rows, kinds), row) ==
              if row.kind in kinds && Embeds(row) then Occurrences(rows, row) else 0
  {
    if kinds != [] {
      SelectedAllOccurrences(rows, kinds[1..], row);
      SelectedOccurrences(rows, kinds[0], row);
      OccurrencesSum(Select(rows, kinds[0]), SelectAll(rows, kinds[1..]), row);
      assert row.kind in kinds <==> row.kind == kinds[0] || row.kind in kinds[1..];
    }
  }

  /** Arranging loses no row and adds none. */
  lemma ArrangedIsPermutation(rows: seq<Row>)
    requires Cleared(rows)
    ensures multiset(Arranged(rows)) == multiset(rows)
  {
    forall row ensures multiset(Arranged(rows))[row] == multiset(rows)[row] {
      OccurrencesAre(Arranged(rows), row);
      OccurrencesAre(rows, row);
      ArrangedOccurrences(rows, row);
    }
  }

  lemma ArrangedOccurrences(rows: seq<Row>, row: Row)
    requires Cleared(rows)
    ensures Occurrences(Arranged(rows), row) == Occurrences(rows, row)
  {
    OccurrencesSum(SelectAll(rows, KINDS), LeftOver(rows), row);
    SelectedAllOccurrences(rows, KINDS, row);
    LeftOverOccurrences(rows, row);
    assert Embeds(row) ==> row.kind in KINDS;
  }

  /** A failing batch fails the embedding as a whole. */
  lemma {:induction false} BatchFails(batches: seq<seq<string>>, service: Service, done: seq<Vector>)
    ensures Answers(batches, service, done).Err? <==> exists k :: 0 <= k < |batches| && service(batches[k]).Err?
    decreases |batches|
  {
    if batches != [] {
      match service(batches[0])
      case Ok(vectors) =>
        BatchFails(batches[1..], service, done + vectors);
        if k :| 0 <= k < |batches| && service(batches[k]).Err? {
          assert batches[1..][k - 1] == batches[k];
        }
      case Err(_) =>
    }
  }
}
