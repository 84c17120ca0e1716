// Text extraction from slides: one nested loop over slides, shapes, paragraphs and runs that collects text
// and hands it out at one of five depths.

module PptxText {

  /** How much text goes into one extracted content. The enumeration has further values, at which the loop
      hands out nothing. */
  datatype Depth = Span | Line | Block | Page | Document | Unsupported

  datatype Run = Run(text: string)

  /** blank: the paragraph's text is nothing but white space. */
  datatype Paragraph = Paragraph(blank: bool, runs: seq<Run>)

  /** Titles and subtitles are replaced as a whole by a heading. */
  datatype Kind = Heading(text: string) | Body

  datatype Shape = Shape(hasTextFrame: bool, kind: Kind, paragraphs: seq<Paragraph>)

  type Slide = seq<Shape>

  /** How the text of a run comes out: escaped, and for Markdown linked, emphasised and listed. */
  type Renderer = (Shape, Paragraph, Run) -> string

  datatype Format = Format(markdown: bool, render: Renderer)

  /** A collected piece of text; added marks the separators the loop puts in. */
  datatype Piece = Piece(text: string, added: bool)

  const SEPARATOR := "\n\n"

  predicate EndsWithSeparator(text: string) {
    |text| >= 2 && text[|text| - 2..] == SEPARATOR
  }

  function Join(texts: seq<string>): string {
    if texts == [] then "" else texts[0] + Join(texts[1..])
  }

  function Texts(pieces: seq<Piece>): seq<string> {
    if pieces == [] then [] else [pieces[0].text] + Texts(pieces[1..])
  }

  /** The pieces that come from the slides themselves. */
  function Own(pieces: seq<Piece>): seq<Piece> {
    if pieces == [] then []
    else (if pieces[0].added then [] else [pieces[0]]) + Own(pieces[1..])
  }

  // ---------------------------------------------------------------------------
  // What there is to extract
  // ---------------------------------------------------------------------------

  predicate IsHeading(fmt: Format, shape: Shape) {
    fmt.markdown && shape.kind.Heading?
  }

  /** What a run becomes: nothing if it is empty, a heading once per shape, otherwise its rendered text. */
  function RunPiece(fmt: Format, shape: Shape, para: Paragraph, run: Run, given: bool): seq<Piece> {
    if run.text == "" || (IsHeading(fmt, shape) && given) then []
    else if IsHeading(fmt, shape) then [Piece(shape.kind.text, false)]
    else [Piece(fmt.render(shape, para, run), false)]
  }

  predicate GivenByRun(fmt: Format, shape: Shape, run: Run, given: bool) {
    given || (run.text != "" && IsHeading(fmt, shape))
  }

  function RunPieces(fmt: Format, shape: Shape, para: Paragraph, runs: seq<Run>, given: bool): seq<Piece> {
    if runs == [] then []
    else RunPiece(fmt, shape, para, runs[0], given)
         + RunPieces(fmt, shape, para, runs[1..], GivenByRun(fmt, shape, runs[0], given))
  }

  function GivenAfter(fmt: Format, shape: Shape, runs: seq<Run>, given: bool): bool {
    if runs == [] then given else GivenAfter(fmt, shape, runs[1..], GivenByRun(fmt, shape, runs[0], given))
  }

  /** A paragraph that has text is closed by a separator unless it ends in one. */
  function Closed(pieces: seq<Piece>): seq<Piece> {
    if pieces != [] && !EndsWithSeparator(pieces[|pieces| - 1].text) then pieces + [Piece(SEPARATOR, true)] else pieces
  }

  /** Blank paragraphs are skipped. */
  function ParagraphPieces(fmt: Format, shape: Shape, para: Paragraph, given: bool): seq<seq<Piece>> {
    if para.blank then [] else [Closed(RunPieces(fmt, shape, para, para.runs, given))]
  }

  predicate GivenByParagraph(fmt: Format, shape: Shape, para: Paragraph, given: bool) {
    if para.blank then given else GivenAfter(fmt, shape, para.runs, given)
  }

  /** The pieces of a text shape, paragraph by paragraph. */
  function Paragraphs(fmt: Format, shape: Shape, paras: seq<Paragraph>, given: bool): seq<seq<Piece>> {
    if paras == [] then []
    else ParagraphPieces(fmt, shape, paras[0], given)
         + Paragraphs(fmt, shape, paras[1..], GivenByParagraph(fmt, shape, paras[0], given))
  }

  function Concat(parts: seq<seq<Piece>>): seq<Piece> {
    if parts == [] then [] else parts[0] + Concat(parts[1..])
  }

  function ShapePieces(fmt: Format, shape: Shape): seq<Piece> {
    if shape.hasTextFrame then Concat(Paragraphs(fmt, shape, shape.paragraphs, false)) else []
  }

  function SlidePieces(fmt: Format, slide: Slide): seq<Piece> {
    if slide == [] then [] else ShapePieces(fmt, slide[0]) + SlidePieces(fmt, slide[1..])
  }

  function DeckPieces(fmt: Format, deck: seq<Slide>): seq<Piece> {
    if deck == [] then [] else SlidePieces(fmt, deck[0]) + DeckPieces(fmt, deck[1..])
  }

  // ---------------------------------------------------------------------------
  // What is extracted at each depth
  // ---------------------------------------------------------------------------

  function Whole(pieces: seq<Piece>): string {
    Join(Texts(pieces))
  }

  function EachWhole(parts: seq<seq<Piece>>): seq<string> {
    if parts == [] then [] else [Whole(parts[0])] + EachWhole(parts[1..])
  }

  /** A content per run, per paragraph, or per text shape. */
  function ShapeContents(fmt: Format, shape: Shape, depth: Depth): seq<string> {
    if !shape.hasTextFrame then []
    else match depth
      case Span => Texts(Own(ShapePieces(fmt, shape)))
      case Line => EachWhole(Paragraphs(fmt, shape, shape.paragraphs, false))
      case Block => [Whole(ShapePieces(fmt, shape))]
      case _ => []
  }

  function ShapesContents(fmt: Format, slide: Slide, depth: Depth): seq<string> {
    if slide == [] then [] else ShapeContents(fmt, slide[0], depth) + ShapesContents(fmt, slide[1..], depth)
  }

  /** A content per slide that has any. */
  function SlideContents(fmt: Format, slide: Slide, depth: Depth): seq<string> {
    if depth.Page? then (if SlidePieces(fmt, slide) == [] then [] else [Whole(SlidePieces(fmt, slide))])
    else ShapesContents(fmt, slide, depth)
  }

  function SlidesContents(fmt: Format, deck: seq<Slide>, depth: Depth): seq<string> {
    if deck == [] then [] else SlideContents(fmt, deck[0], depth) + SlidesContents(fmt, deck[1..], depth)
  }

  function Contents(fmt: Format, deck: seq<Slide>, depth: Depth): seq<string> {
    if depth.Document? then (if DeckPieces(fmt, deck) == [] then [] else [Whole(DeckPieces(fmt, deck))])
    else SlidesContents(fmt, deck, depth)
  }

  // ---------------------------------------------------------------------------
  // Flush-policy independence
  // ---------------------------------------------------------------------------

  lemma {:induction false} JoinConcat(a: seq<string>, b: seq<string>)
    ensures Join(a + b) == Join(a) + Join(b)
  {
    if a == [] {
      assert a + b == b;
    } else {
      assert (a + b)[1..] == a[1..] + b;
      JoinConcat(a[1..], b);
    }
  }

  lemma {:induction false} TextsConcat(a: seq<Piece>, b: seq<Piece>)
    ensures Texts(a + b) == Texts(a) + Texts(b)
  {
    if a == [] {
      assert a + b == b;
    } else {
      assert (a + b)[1..] == a[1..] + b;
      TextsConcat(a[1..], b);
    }
  }

  lemma {:induction false} OwnConcat(a: seq<Piece>, b: seq<Piece>)
    ensures Own(a + b) == Own(a) + Own(b)
  {
    if a == [] {
      assert a + b == b;
    } else {
      assert (a + b)[1..] == a[1..] + b;
      OwnConcat(a[1..], b);
    }
  }

  lemma WholeConcat(a: seq<Piece>, b: seq<Piece>)
    ensures Whole(a + b) == Whole(a) + Whole(b)
  {
    TextsConcat(a, b);
    JoinConcat(Texts(a), Texts(b));
  }

  lemma JoinSingle(text: string)
    ensures Join([text]) == text
  {
    assert [text][1..] == [];
  }

  lemma {:induction false} EachWholeJoins(parts: seq<seq<Piece>>)
    ensures Join(EachWhole(parts)) == Whole(Concat(parts))
  {
    if parts != [] {
      EachWholeJoins(parts[1..]);
      WholeConcat(parts[0], Concat(parts[1..]));
      assert EachWhole(parts)[1..] == EachWhole(parts[1..]);
    }
  }

  lemma ShapeTextKept(fmt: Format, shape: Shape, depth: Depth)
    ensures depth.Line? || depth.Block? ==> Join(ShapeContents(fmt, shape, depth)) == Whole(ShapePieces(fmt, shape))
    ensures depth.Span? ==> Join(ShapeContents(fmt, shape, depth)) == Whole(Own(ShapePieces(fmt, shape)))
  {
    EachWholeJoins(Paragraphs(fmt, shape, shape.paragraphs, false));
    JoinSingle(Whole(ShapePieces(fmt, shape)));
  }

  lemma {:induction false} ShapesTextKept(fmt: Format, slide: Slide, depth: Depth)
    ensures depth.Line? || depth.Block? ==> Join(ShapesContents(fmt, slide, depth)) == Whole(SlidePieces(fmt, slide))
    ensures depth.Span? ==> Join(ShapesContents(fmt, slide, depth)) == Whole(Own(SlidePieces(fmt, slide)))
  {
    if slide != [] {
      ShapeTextKept(fmt, slide[0], depth);
      ShapesTextKept(fmt, slide[1..], depth);
      JoinConcat(ShapeContents(fmt, slide[0], depth), ShapesContents(fmt, slide[1..], depth));
      var a, b := ShapePieces(fmt, slide[0]), SlidePieces(fmt, slide[1..]);
      WholeConcat(a, b);
      WholeConcat(Own(a), Own(b));
      OwnConcat(a, b);
    }
  }

  lemma {:induction false} SlidesTextKept(fmt: Format, deck: seq<Slide>, depth: Depth)
    ensures depth.Line? || depth.Block? || depth.Page? ==>
              Join(SlidesContents(fmt, deck, depth)) == Whole(DeckPieces(fmt, deck))
    ensures depth.Span? ==> Join(SlidesContents(fmt, deck, depth)) == Whole(Own(DeckPieces(fmt, deck)))
  {
    if deck != [] {
      ShapesTextKept(fmt, deck[0], depth);
      JoinSingle(Whole(SlidePieces(fmt, deck[0])));
      SlidesTextKept(fmt, deck[1..], depth);
      JoinConcat(SlideContents(fmt, deck[0], depth), SlidesContents(fmt, deck[1..], depth));
      var a, b := SlidePieces(fmt, deck[0]), DeckPieces(fmt, deck[1..]);
      WholeConcat(a, b);
      WholeConcat(Own(a), Own(b));
      OwnConcat(a, b);
    }
  }

  /** The text does not depend on the depth: for any deck and any rendering of runs, what is extracted at
      line, block, page and document depth joins to one and the same string; at span depth it joins to that
      string without the separators the loop added, and at any other depth nothing is extracted. */
  lemma FlushPolicyIndependence(fmt: Format, deck: seq<Slide>, depth: Depth)
    ensures Join(Contents(fmt, deck, depth)) ==
              match depth
              case Span => Whole(Own(DeckPieces(fmt, deck)))
              case Unsupported => ""
              case _ => Whole(DeckPieces(fmt, deck))
  {
    SlidesTextKept(fmt, deck, depth);
    JoinSingle(Whole(DeckPieces(fmt, deck)));
    if depth.Unsupported? {
      NothingUnsupported(fmt, deck);
    }
  }

  lemma {:induction false} NothingUnsupported(fmt: Format, deck: seq<Slide>)
    ensures SlidesContents(fmt, deck, Unsupported) == []
  {
    if deck != [] {
      NoShapeUnsupported(fmt, deck[0]);
      NothingUnsupported(fmt, deck[1..]);
    }
  }

  lemma {:induction false} NoShapeUnsupported(fmt: Format, slide: Slide)
    ensures ShapesContents(fmt, slide, Unsupported) == []
  {
    if slide != [] {
      NoShapeUnsupported(fmt, slide[1..]);
    }
  }

  // ---------------------------------------------------------------------------
  // The loop
  // ---------------------------------------------------------------------------

  /** Between paragraphs nothing is pending, or what is pending ends in a separator. */
  predicate AtBoundary(pending: seq<Piece>) {
    pending == [] || EndsWithSeparator(pending[|pending| - 1].text)
  }

  /** What a run hands out at once, and what it leaves pending. */
  function RunHanded(depth: Depth, pieces: seq<Piece>): seq<string> {
    if depth.Span? then Texts(pieces) else []
  }

  function RunPending(depth: Depth, pieces: seq<Piece>): seq<Piece> {
    if depth.Span? then [] else pieces
  }

  lemma RunHandedConcat(depth: Depth, a: seq<Piece>, b: seq<Piece>)
    ensures RunHanded(depth, a + b) == RunHanded(depth, a) + RunHanded(depth, b)
    ensures RunPending(depth, a + b) == RunPending(depth, a) + RunPending(depth, b)
  {
    TextsConcat(a, b);
  }

  lemma RunHandedSingle(depth: Depth, text: string)
    ensures RunHanded(depth, [Piece(text, false)]) == if depth.Span? then [text] else []
  {
    assert Texts([Piece(text, false)]) == [text] + Texts([Piece(text, false)][1..]);
  }

  /** One run; at span depth its piece is handed out at once. */
  method ExtractRun(fmt: Format, depth: Depth, shape: Shape, para: Paragraph, run: Run, given: bool,
                    pending: seq<Piece>, contents: seq<string>)
      returns (given': bool, pending': seq<Piece>, contents': seq<string>)
    requires depth.Span? ==> pending == []
    ensures given' == GivenByRun(fmt, shape, run, given)
    ensures pending' == pending + RunPending(depth, RunPiece(fmt, shape, para, run, given))
    ensures contents' == contents + RunHanded(depth, RunPiece(fmt, shape, para, run, given))
  {
    given', pending', contents' := given, pending, contents;
    if run.text == "" {
      return;
    }
    var text;
    if IsHeading(fmt, shape) {
      if given' {
        return;
      }
      text := shape.kind.text;
      given' := true;
    } else {
      text := fmt.render(shape, para, run);
    }
    RunHandedSingle(depth, text);
    pending' := pending' + [Piece(text, false)];
    if depth.Span? {
      assert pending' == [Piece(text, false)];
      WholeSingle(text);
      contents' := contents' + [Whole(pending')];
      pending' := [];
    }
  }

  lemma WholeSingle(text: string)
    ensures Whole([Piece(text, false)]) == text
  {
    RunHandedSingle(Span, text);
    JoinSingle(text);
  }

  /** done are the pieces of the first i runs, and the heading is given or not after them. */
  ghost predicate RunsTaken(fmt: Format, shape: Shape, para: Paragraph, given: bool,
                            i: nat, done: seq<Piece>, given': bool)
  {
    && i <= |para.runs|
    && GivenAfter(fmt, shape, para.runs, given) == GivenAfter(fmt, shape, para.runs[i..], given')
    && RunPieces(fmt, shape, para, para.runs, given) == done + RunPieces(fmt, shape, para, para.runs[i..], given')
  }

  lemma TakeRun(fmt: Format, shape: Shape, para: Paragraph, given: bool, i: nat, done: seq<Piece>, given': bool)
    requires RunsTaken(fmt, shape, para, given, i, done, given') && i < |para.runs|
    ensures var run := para.runs[i];
            RunsTaken(fmt, shape, para, given, i + 1, done + RunPiece(fmt, shape, para, run, given'),
                      GivenByRun(fmt, shape, run, given'))
  {
    assert para.runs[i..][1..] == para.runs[i + 1..];
  }

  lemma AllRunsTaken(fmt: Format, shape: Shape, para: Paragraph, given: bool, done: seq<Piece>, given': bool)
    requires RunsTaken(fmt, shape, para, given, |para.runs|, done, given')
    ensures RunPieces(fmt, shape, para, para.runs, given) == done && GivenAfter(fmt, shape, para.runs, given) == given'
  {
  }

  /** The runs' text has been handed out or left pending, in order. */
  ghost predicate RunsHanded(depth: Depth, pieces: seq<Piece>, pending: seq<Piece>, contents: seq<string>,
                             pending': seq<Piece>, contents': seq<string>)
  {
    && pending' == pending + RunPending(depth, pieces) && contents' == contents + RunHanded(depth, pieces)
    && (depth.Span? ==> pending' == pending)
  }

  lemma HandOneMore(depth: Depth, done: seq<Piece>, piece: seq<Piece>, pending: seq<Piece>, contents: seq<string>,
                    pending1: seq<Piece>, contents1: seq<string>)
    requires RunsHanded(depth, done, pending, contents, pending1, contents1)
    ensures RunsHanded(depth, done + piece, pending, contents, pending1 + RunPending(depth, piece),
                       contents1 + RunHanded(depth, piece))
  {
    RunHandedConcat(depth, done, piece);
    Regroup(pending, RunPending(depth, done), RunPending(depth, piece));
    Regroup(contents, RunHanded(depth, done), RunHanded(depth, piece));
  }

  /** The runs of a paragraph. */
  method ExtractRuns(fmt: Format, depth: Depth, shape: Shape, para: Paragraph, given: bool,
                     pending: seq<Piece>, contents: seq<string>)
      returns (given': bool, pending': seq<Piece>, contents': seq<string>)
    requires depth.Span? ==> pending == []
    ensures given' == GivenAfter(fmt, shape, para.runs, given)
    ensures pending' == pending + RunPending(depth, RunPieces(fmt, shape, para, para.runs, given))
    ensures contents' == contents + RunHanded(depth, RunPieces(fmt, shape, para, para.runs, given))
  {
    given', pending', contents' := given, pending, contents;
    ghost var done: seq<Piece> := [];
    for i := 0 to |para.runs|
      invariant RunsTaken(fmt, shape, para, given, i, done, given')
      invariant RunsHanded(depth, done, pending, contents, pending', contents')
    {
      ghost var piece := RunPiece(fmt, shape, para, para.runs[i], given');
      TakeRun(fmt, shape, para, given, i, done, given');
      HandOneMore(depth, done, piece, pending, contents, pending', contents');
      given', pending', contents' :=
        ExtractRun(fmt, depth, shape, para, para.runs[i], given', pending', contents');
      done := done + piece;
    }
    AllRunsTaken(fmt, shape, para, given, done, given');
  }

  /** What paragraphs hand out before their shape is flushed, and what they leave pending. */
  function ParagraphsHanded(depth: Depth, paras: seq<seq<Piece>>): seq<string> {
    if depth.Span? then Texts(Own(Concat(paras))) else if depth.Line? then EachWhole(paras) else []
  }

  function ParagraphsPending(depth: Depth, paras: seq<seq<Piece>>): seq<Piece> {
    if depth.Span? || depth.Line? then [] else Concat(paras)
  }

  lemma {:induction false} ConcatConcat(a: seq<seq<Piece>>, b: seq<seq<Piece>>)
    ensures Concat(a + b) == Concat(a) + Concat(b) && EachWhole(a + b) == EachWhole(a) + EachWhole(b)
  {
    if a == [] {
      assert a + b == b;
    } else {
      assert (a + b)[1..] == a[1..] + b;
      ConcatConcat(a[1..], b);
    }
  }

  lemma ParagraphsHandedConcat(depth: Depth, a: seq<seq<Piece>>, b: seq<seq<Piece>>)
    ensures ParagraphsHanded(depth, a + b) == ParagraphsHanded(depth, a) + ParagraphsHanded(depth, b)
    ensures ParagraphsPending(depth, a + b) == ParagraphsPending(depth, a) + ParagraphsPending(depth, b)
  {
    ConcatConcat(a, b);
    OwnConcat(Concat(a), Concat(b));
    TextsConcat(Own(Concat(a)), Own(Concat(b)));
  }

  /** The paragraphs' text has been handed out or left pending, in order. */
  ghost predicate HandedOut(depth: Depth, paras: seq<seq<Piece>>, pending: seq<Piece>, contents: seq<string>,
                            pending': seq<Piece>, contents': seq<string>)
  {
    pending' == pending + ParagraphsPending(depth, paras) && contents' == contents + ParagraphsHanded(depth, paras)
  }

  lemma HandedOutInTurn(depth: Depth, a: seq<seq<Piece>>, b: seq<seq<Piece>>,
                        pending: seq<Piece>, contents: seq<string>, pending1: seq<Piece>, contents1: seq<string>,
                        pending2: seq<Piece>, contents2: seq<string>)
    requires HandedOut(depth, a, pending, contents, pending1, contents1)
    requires HandedOut(depth, b, pending1, contents1, pending2, contents2)
    ensures HandedOut(depth, a + b, pending, contents, pending2, contents2)
  {
    ParagraphsHandedConcat(depth, a, b);
    Regroup(pending, ParagraphsPending(depth, a), ParagraphsPending(depth, b));
    Regroup(contents, ParagraphsHanded(depth, a), ParagraphsHanded(depth, b));
  }

  lemma Regroup<T>(a: seq<T>, b: seq<T>, c: seq<T>)
    ensures a + b + c == a + (b + c)
  {
  }

  lemma ConcatSingle(part: seq<Piece>)
    ensures Concat([part]) == part && EachWhole([part]) == [Whole(part)]
  {
    assert [part][1..] == [];
  }

  lemma {:induction false} OwnRuns(fmt: Format, shape: Shape, para: Paragraph, runs: seq<Run>, given: bool)
    ensures Own(RunPieces(fmt, shape, para, runs, given)) == RunPieces(fmt, shape, para, runs, given)
  {
    if runs != [] {
      var first := RunPiece(fmt, shape, para, runs[0], given);
      var given' := GivenByRun(fmt, shape, runs[0], given);
      OwnRuns(fmt, shape, para, runs[1..], given');
      OwnConcat(first, RunPieces(fmt, shape, para, runs[1..], given'));
      assert Own(first) == first;
    }
  }

  lemma OwnClosed(fmt: Format, shape: Shape, para: Paragraph, given: bool)
    ensures Own(Closed(RunPieces(fmt, shape, para, para.runs, given))) == RunPieces(fmt, shape, para, para.runs, given)
  {
    var pieces := RunPieces(fmt, shape, para, para.runs, given);
    OwnRuns(fmt, shape, para, para.runs, given);
    OwnConcat(pieces, [Piece(SEPARATOR, true)]);
    assert Own([Piece(SEPARATOR, true)]) == [] + Own([Piece(SEPARATOR, true)][1..]);
  }

  /** Adds the separator to what is pending, where it is missing. */
  method Separate(pending: seq<Piece>) returns (pending': seq<Piece>)
    ensures pending' == Closed(pending) && AtBoundary(pending')
  {
    pending' := pending;
    if pending' != [] && !EndsWithSeparator(pending'[|pending'| - 1].text) {
      pending' := pending' + [Piece(SEPARATOR, true)];
    }
  }

  /** At a boundary the separator depends on the paragraph alone. */
  lemma ClosedAtBoundary(pending: seq<Piece>, pieces: seq<Piece>)
    requires AtBoundary(pending)
    ensures Closed(pending + pieces) == pending + Closed(pieces)
  {
    if pieces == [] {
      assert pending + pieces == pending;
    } else {
      assert (pending + pieces)[|pending + pieces| - 1] == pieces[|pieces| - 1];
      assert pending + pieces + [Piece(SEPARATOR, true)] == pending + (pieces + [Piece(SEPARATOR, true)]);
    }
  }

  lemma OneParagraph(fmt: Format, depth: Depth, shape: Shape, para: Paragraph, given: bool)
    ensures var pieces := RunPieces(fmt, shape, para, para.runs, given);
            && ParagraphsPending(depth, [Closed(pieces)])
               == (if depth.Line? then [] else Closed(RunPending(depth, pieces)))
            && ParagraphsHanded(depth, [Closed(pieces)])
               == RunHanded(depth, pieces) + if depth.Line? then [Whole(Closed(pieces))] else []
  {
    ConcatSingle(Closed(RunPieces(fmt, shape, para, para.runs, given)));
    OwnClosed(fmt, shape, para, given);
  }

  /** The runs of a paragraph are out; what is pending of it is closed, and at line depth handed out. */
  lemma ParagraphHandedOut(fmt: Format, depth: Depth, shape: Shape, para: Paragraph, given: bool,
                           pending: seq<Piece>, contents: seq<string>, closed: seq<Piece>, contents1: seq<string>)
    requires AtBoundary(pending) && (depth.Span? || depth.Line? ==> pending == [])
    requires var pieces := RunPieces(fmt, shape, para, para.runs, given);
             closed == Closed(pending + RunPending(depth, pieces)) && contents1 == contents + RunHanded(depth, pieces)
    ensures HandedOut(depth, [Closed(RunPieces(fmt, shape, para, para.runs, given))], pending, contents,
                      if depth.Line? then [] else closed,
                      contents1 + if depth.Line? then [Whole(closed)] else [])
  {
    var pieces := RunPieces(fmt, shape, para, para.runs, given);
    OneParagraph(fmt, depth, shape, para, given);
    ClosedAtBoundary(pending, RunPending(depth, pieces));
    if depth.Line? {
      assert closed == Closed(pieces);
      Regroup(contents, RunHanded(depth, pieces), [Whole(closed)]);
    }
  }

  /** A paragraph: its runs, the separator, and at line depth the content. */
  method ExtractParagraph(fmt: Format, depth: Depth, shape: Shape, para: Paragraph, given: bool,
                          pending: seq<Piece>, contents: seq<string>)
      returns (given': bool, pending': seq<Piece>, contents': seq<string>)
    requires AtBoundary(pending)
    requires depth.Span? || depth.Line? ==> pending == []
    ensures AtBoundary(pending') && (depth.Span? || depth.Line? ==> pending' == [])
    ensures given' == GivenByParagraph(fmt, shape, para, given)
    ensures HandedOut(depth, ParagraphPieces(fmt, shape, para, given), pending, contents, pending', contents')
  {
    given', pending', contents' := given, pending, contents;
    if para.blank {
      return;
    }
    given', pending', contents' := ExtractRuns(fmt, depth, shape, para, given, pending, contents);
    pending' := Separate(pending');
    ParagraphHandedOut(fmt, depth, shape, para, given, pending, contents, pending', contents');
    if depth.Line? {
      contents' := contents' + [Whole(pending')];
      pending' := [];
    }
  }

  /** done are the pieces of the first i paragraphs, and the heading is given or not after them. */
  ghost predicate ParagraphsTaken(fmt: Format, shape: Shape, i: nat, done: seq<seq<Piece>>, given: bool) {
    && i <= |shape.paragraphs|
    && Paragraphs(fmt, shape, shape.paragraphs, false) == done + Paragraphs(fmt, shape, shape.paragraphs[i..], given)
  }

  lemma TakeParagraph(fmt: Format, shape: Shape, i: nat, done: seq<seq<Piece>>, given: bool)
    requires ParagraphsTaken(fmt, shape, i, done, given) && i < |shape.paragraphs|
    ensures var para := shape.paragraphs[i];
            ParagraphsTaken(fmt, shape, i + 1, done + ParagraphPieces(fmt, shape, para, given),
                            GivenByParagraph(fmt, shape, para, given))
  {
    var para := shape.paragraphs[i];
    FirstParagraph(fmt, shape, shape.paragraphs[i..], given);
    assert shape.paragraphs[i..][1..] == shape.paragraphs[i + 1..];
    Regroup(done, ParagraphPieces(fmt, shape, para, given),
            Paragraphs(fmt, shape, shape.paragraphs[i + 1..], GivenByParagraph(fmt, shape, para, given)));
  }

  lemma FirstParagraph(fmt: Format, shape: Shape, paras: seq<Paragraph>, given: bool)
    requires paras != []
    ensures Paragraphs(fmt, shape, paras, given)
         == ParagraphPieces(fmt, shape, paras[0], given)
            + Paragraphs(fmt, shape, paras[1..], GivenByParagraph(fmt, shape, paras[0], given))
  {
  }

  lemma AllParagraphsTaken(fmt: Format, shape: Shape, done: seq<seq<Piece>>, given: bool)
    requires ParagraphsTaken(fmt, shape, |shape.paragraphs|, done, given)
    ensures Paragraphs(fmt, shape, shape.paragraphs, false) == done
  {
  }

  /** The paragraphs of a shape; those that are blank are skipped. */
  method ExtractParagraphs(fmt: Format, depth: Depth, shape: Shape, pending: seq<Piece>, contents: seq<string>)
      returns (pending': seq<Piece>, contents': seq<string>)
    requires AtBoundary(pending)
    requires depth.Span? || depth.Line? ==> pending == []
    ensures AtBoundary(pending')
    ensures HandedOut(depth, Paragraphs(fmt, shape, shape.paragraphs, false), pending, contents, pending', contents')
  {
    pending', contents' := pending, contents;
    var given := false;
    ghost var done: seq<seq<Piece>> := [];
    for i := 0 to |shape.paragraphs|
      invariant AtBoundary(pending') && (depth.Span? || depth.Line? ==> pending' == [])
      invariant ParagraphsTaken(fmt, shape, i, done, given)
      invariant HandedOut(depth, done, pending, contents, pending', contents')
    {
      var para := shape.paragraphs[i];
      ghost var pieces := ParagraphPieces(fmt, shape, para, given);
      TakeParagraph(fmt, shape, i, done, given);
      ghost var pending1, contents1 := pending', contents';
      given, pending', contents' := ExtractParagraph(fmt, depth, shape, para, given, pending', contents');
      HandedOutInTurn(depth, done, pieces, pending, contents, pending1, contents1, pending', contents');
      done := done + pieces;
    }
    AllParagraphsTaken(fmt, shape, done, given);
  }

  /** What a shape leaves pending. */
  function ShapePending(fmt: Format, shape: Shape, depth: Depth): seq<Piece> {
    if depth.Span? || depth.Line? || depth.Block? then [] else ShapePieces(fmt, shape)
  }

  /** Depths at which every text shape is flushed. */
  predicate FlushesShapes(depth: Depth) {
    depth.Span? || depth.Line? || depth.Block?
  }

  /** A shape; at block depth a text shape is handed out even if it has no text. */
  method ExtractShape(fmt: Format, depth: Depth, shape: Shape, pending: seq<Piece>, contents: seq<string>)
      returns (pending': seq<Piece>, contents': seq<string>)
    requires AtBoundary(pending)
    requires FlushesShapes(depth) ==> pending == []
    ensures AtBoundary(pending')
    ensures pending' == pending + ShapePending(fmt, shape, depth)
    ensures contents' == contents + ShapeContents(fmt, shape, depth)
  {
    pending', contents' := pending, contents;
    if shape.hasTextFrame {
      pending', contents' := ExtractParagraphs(fmt, depth, shape, pending', contents');
      if depth.Block? {
        assert pending' == ShapePieces(fmt, shape);
        contents' := contents' + [Whole(pending')];
        pending' := [];
      }
    }
  }

  function ShapesPending(fmt: Format, slide: Slide, depth: Depth): seq<Piece> {
    if FlushesShapes(depth) then [] else SlidePieces(fmt, slide)
  }

  lemma {:induction false} SlidePiecesConcat(fmt: Format, a: Slide, b: Slide)
    ensures SlidePieces(fmt, a + b) == SlidePieces(fmt, a) + SlidePieces(fmt, b)
  {
    if a == [] {
      assert a + b == b;
    } else {
      assert (a + b)[1..] == a[1..] + b && (a + b)[0] == a[0];
      SlidePiecesConcat(fmt, a[1..], b);
      Regroup(ShapePieces(fmt, a[0]), SlidePieces(fmt, a[1..]), SlidePieces(fmt, b));
    }
  }

  lemma {:induction false} ShapesConcat(fmt: Format, a: Slide, b: Slide, depth: Depth)
    ensures ShapesContents(fmt, a + b, depth) == ShapesContents(fmt, a, depth) + ShapesContents(fmt, b, depth)
  {
    if a == [] {
      assert a + b == b;
    } else {
      assert (a + b)[1..] == a[1..] + b && (a + b)[0] == a[0];
      ShapesConcat(fmt, a[1..], b, depth);
      Regroup(ShapeContents(fmt, a[0], depth), ShapesContents(fmt, a[1..], depth), ShapesContents(fmt, b, depth));
    }
  }

  lemma TakeShape(fmt: Format, slide: Slide, i: nat, depth: Depth)
    requires i < |slide|
    ensures ShapesContents(fmt, slide[..i + 1], depth)
         == ShapesContents(fmt, slide[..i], depth) + ShapeContents(fmt, slide[i], depth)
    ensures ShapesPending(fmt, slide[..i + 1], depth)
         == ShapesPending(fmt, slide[..i], depth) + ShapePending(fmt, slide[i], depth)
  {
    assert slide[..i + 1] == slide[..i] + [slide[i]];
    ShapesConcat(fmt, slide[..i], [slide[i]], depth);
    SlidePiecesConcat(fmt, slide[..i], [slide[i]]);
    assert [slide[i]][1..] == [];
  }

  /** The shapes of a slide. */
  method ExtractShapes(fmt: Format, depth: Depth, slide: Slide, pending: seq<Piece>, contents: seq<string>)
      returns (pending': seq<Piece>, contents': seq<string>)
    requires AtBoundary(pending)
    requires FlushesShapes(depth) ==> pending == []
    ensures AtBoundary(pending')
    ensures pending' == pending + ShapesPending(fmt, slide, depth)
    ensures contents' == contents + ShapesContents(fmt, slide, depth)
  {
    pending', contents' := pending, contents;
    assert slide[..|slide|] == slide;
    for i := 0 to |slide|
      invariant AtBoundary(pending') && (FlushesShapes(depth) ==> pending' == [])
      invariant ShapesTaken(fmt, depth, slide[..i], pending, contents, pending', contents')
    {
      ghost var pending1, contents1 := pending', contents';
      pending', contents' := ExtractShape(fmt, depth, slide[i], pending', contents');
      TakeOneMore(fmt, depth, slide, i, pending, contents, pending1, contents1, pending', contents');
    }
  }

  /** The shapes' text has been handed out or left pending, in order. */
  ghost predicate ShapesTaken(fmt: Format, depth: Depth, slide: Slide, pending: seq<Piece>, contents: seq<string>,
                              pending': seq<Piece>, contents': seq<string>)
  {
    && pending' == pending + ShapesPending(fmt, slide, depth)
    && contents' == contents + ShapesContents(fmt, slide, depth)
  }

  lemma TakeOneMore(fmt: Format, depth: Depth, slide: Slide, i: nat, pending: seq<Piece>, contents: seq<string>,
                    pending1: seq<Piece>, contents1: seq<string>, pending2: seq<Piece>, contents2: seq<string>)
    requires i < |slide| && ShapesTaken(fmt, depth, slide[..i], pending, contents, pending1, contents1)
    requires pending2 == pending1 + ShapePending(fmt, slide[i], depth)
    requires contents2 == contents1 + ShapeContents(fmt, slide[i], depth)
    ensures ShapesTaken(fmt, depth, slide[..i + 1], pending, contents, pending2, contents2)
  {
    TakeShape(fmt, slide, i, depth);
    Regroup(pending, ShapesPending(fmt, slide[..i], depth), ShapePending(fmt, slide[i], depth));
    Regroup(contents, ShapesContents(fmt, slide[..i], depth), ShapeContents(fmt, slide[i], depth));
  }

  function SlidePending(fmt: Format, slide: Slide, depth: Depth): seq<Piece> {
    if FlushesShapes(depth) || depth.Page? then [] else SlidePieces(fmt, slide)
  }

  /** A slide; at page depth it is handed out if there is any text. */
  method ExtractSlide(fmt: Format, depth: Depth, slide: Slide, pending: seq<Piece>, contents: seq<string>)
      returns (pending': seq<Piece>, contents': seq<string>)
    requires AtBoundary(pending)
    requires FlushesShapes(depth) || depth.Page? ==> pending == []
    ensures AtBoundary(pending')
    ensures pending' == pending + SlidePending(fmt, slide, depth)
    ensures contents' == contents + SlideContents(fmt, slide, depth)
  {
    pending', contents' := ExtractShapes(fmt, depth, slide, pending, contents);
    if depth.Page? {
      NoShapeAtPage(fmt, slide);
      assert contents' == contents && pending' == SlidePieces(fmt, slide);
      if |pending'| > 0 {
        contents' := contents' + [Whole(pending')];
        pending' := [];
      }
    }
  }

  lemma {:induction false} NoShapeAtPage(fmt: Format, slide: Slide)
    ensures ShapesContents(fmt, slide, Page) == []
  {
    if slide != [] {
      NoShapeAtPage(fmt, slide[1..]);
    }
  }

  lemma {:induction false} NoSlideAtDocument(fmt: Format, deck: seq<Slide>)
    ensures SlidesContents(fmt, deck, Document) == []
  {
    if deck != [] {
      NoShapeAtDocument(fmt, deck[0]);
      NoSlideAtDocument(fmt, deck[1..]);
    }
  }

  lemma {:induction false} NoShapeAtDocument(fmt: Format, slide: Slide)
    ensures ShapesContents(fmt, slide, Document) == []
  {
    if slide != [] {
      NoShapeAtDocument(fmt, slide[1..]);
    }
  }

  function SlidesPending(fmt: Format, deck: seq<Slide>, depth: Depth): seq<Piece> {
    if FlushesShapes(depth) || depth.Page? then [] else DeckPieces(fmt, deck)
  }

  lemma {:induction false} DeckPiecesConcat(fmt: Format, a: seq<Slide>, b: seq<Slide>)
    ensures DeckPieces(fmt, a + b) == DeckPieces(fmt, a) + DeckPieces(fmt, b)
  {
    if a == [] {
      assert a + b == b;
    } else {
      assert (a + b)[1..] == a[1..] + b && (a + b)[0] == a[0];
      DeckPiecesConcat(fmt, a[1..], b);
      Regroup(SlidePieces(fmt, a[0]), DeckPieces(fmt, a[1..]), DeckPieces(fmt, b));
    }
  }

  lemma {:induction false} SlidesConcat(fmt: Format, a: seq<Slide>, b: seq<Slide>, depth: Depth)
    ensures SlidesContents(fmt, a + b, depth) == SlidesContents(fmt, a, depth) + SlidesContents(fmt, b, depth)
  {
    if a == [] {
      assert a + b == b;
    } else {
      assert (a + b)[1..] == a[1..] + b && (a + b)[0] == a[0];
      SlidesConcat(fmt, a[1..], b, depth);
      Regroup(SlideContents(fmt, a[0], depth), SlidesContents(fmt, a[1..], depth), SlidesContents(fmt, b, depth));
    }
  }

  lemma OneSlide(fmt: Format, slide: Slide, depth: Depth)
    ensures SlidesContents(fmt, [slide], depth) == SlideContents(fmt, slide, depth)
    ensures DeckPieces(fmt, [slide]) == SlidePieces(fmt, slide)
  {
    assert [slide][1..] == [];
  }

  lemma TakeSlide(fmt: Format, deck: seq<Slide>, i: nat, depth: Depth)
    requires i < |deck|
    ensures SlidesContents(fmt, deck[..i + 1], depth)
         == SlidesContents(fmt, deck[..i], depth) + SlideContents(fmt, deck[i], depth)
    ensures SlidesPending(fmt, deck[..i + 1], depth)
         == SlidesPending(fmt, deck[..i], depth) + SlidePending(fmt, deck[i], depth)
  {
    assert deck[..i + 1] == deck[..i] + [deck[i]];
    SlidesConcat(fmt, deck[..i], [deck[i]], depth);
    DeckPiecesConcat(fmt, deck[..i], [deck[i]]);
    OneSlide(fmt, deck[i], depth);
  }

  /** The extraction of the text of a deck, with the pieces of a content joined. */
  method ExtractText(fmt: Format, depth: Depth, deck: seq<Slide>) returns (contents: seq<string>)
    ensures contents == Contents(fmt, deck, depth)
  {
    var pending: seq<Piece> := [];
    contents := [];
    for i := 0 to |deck|
      invariant AtBoundary(pending)
      invariant FlushesShapes(depth) || depth.Page? ==> pending == []
      invariant pending == SlidesPending(fmt, deck[..i], depth)
      invariant contents == SlidesContents(fmt, deck[..i], depth)
    {
      TakeSlide(fmt, deck, i, depth);
      pending, contents := ExtractSlide(fmt, depth, deck[i], pending, contents);
    }
    assert deck[..|deck|] == deck;
    if depth.Document? {
      NoSlideAtDocument(fmt, deck);
      assert pending == DeckPieces(fmt, deck);
      if |pending| > 0 {
        contents := contents + [Whole(pending)];
      }
    }
  }
}
