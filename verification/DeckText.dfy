// What text comes out of a deck at each depth, said of its shapes, paragraphs and runs alone.

module DeckText {
  import opened PptxText

  /** The runs that have text. */
  function WithText(runs: seq<Run>): seq<Run> {
    if runs == [] then [] else (if runs[0].text == "" then [] else [runs[0]]) + WithText(runs[1..])
  }

  /** What a paragraph says. */
  function Said(para: Paragraph): seq<Run> {
    if para.blank then [] else WithText(para.runs)
  }

  function Rendered(fmt: Format, shape: Shape, para: Paragraph, runs: seq<Run>): seq<string> {
    seq(|runs|, k requires 0 <= k < |runs| => fmt.render(shape, para, runs[k]))
  }

  /** A paragraph before this one has said something. */
  predicate SaidBefore(shape: Shape, j: nat)
    requires j <= |shape.paragraphs|
  {
    exists i :: 0 <= i < j && Said(shape.paragraphs[i]) != []
  }

  /** The texts of the j-th paragraph of a text shape. In Markdown the heading stands for all that a title says. */
  function ParagraphTexts(fmt: Format, shape: Shape, j: nat): seq<string>
    requires j < |shape.paragraphs|
  {
    var said := Said(shape.paragraphs[j]);
    if fmt.markdown && shape.kind.Heading?
    then if said == [] || SaidBefore(shape, j) then [] else [shape.kind.text]
    else Rendered(fmt, shape, shape.paragraphs[j], said)
  }

  /** A paragraph as one text, which ends in an empty line unless there is nothing in it. */
  function Line(texts: seq<string>): string {
    Join(texts) + if texts == [] || EndsInEmptyLine(texts[|texts| - 1]) then "" else "\n\n"
  }

  predicate EndsInEmptyLine(text: string) {
    |text| >= 2 && text[|text| - 2] == '\n' && text[|text| - 1] == '\n'
  }

  /** The texts of a shape from its j-th paragraph on. */
  function TextsFrom(fmt: Format, shape: Shape, j: nat): seq<string>
    requires j <= |shape.paragraphs|
    decreases |shape.paragraphs| - j
  {
    if j == |shape.paragraphs| then [] else ParagraphTexts(fmt, shape, j) + TextsFrom(fmt, shape, j + 1)
  }

  /** The paragraphs of a shape from the j-th on; those that are blank are left out. */
  function LinesFrom(fmt: Format, shape: Shape, j: nat): seq<string>
    requires j <= |shape.paragraphs|
    decreases |shape.paragraphs| - j
  {
    if j == |shape.paragraphs| then []
    else (if shape.paragraphs[j].blank then [] else [Line(ParagraphTexts(fmt, shape, j))])
         + LinesFrom(fmt, shape, j + 1)
  }

  function ShapeTexts(fmt: Format, shape: Shape): seq<string> {
    if shape.hasTextFrame then TextsFrom(fmt, shape, 0) else []
  }

  function ShapeLines(fmt: Format, shape: Shape): seq<string> {
    if shape.hasTextFrame then LinesFrom(fmt, shape, 0) else []
  }

  function SlideTexts(fmt: Format, slide: Slide): seq<string> {
    if slide == [] then [] else ShapeTexts(fmt, slide[0]) + SlideTexts(fmt, slide[1..])
  }

  function SlideLines(fmt: Format, slide: Slide): seq<string> {
    if slide == [] then [] else ShapeLines(fmt, slide[0]) + SlideLines(fmt, slide[1..])
  }

  /** One text for every text shape, also for one that says nothing. */
  function SlideBlocks(fmt: Format, slide: Slide): seq<string> {
    if slide == [] then []
    else (if slide[0].hasTextFrame then [Join(ShapeLines(fmt, slide[0]))] else []) + SlideBlocks(fmt, slide[1..])
  }

  function DeckTexts(fmt: Format, deck: seq<Slide>): seq<string> {
    if deck == [] then [] else SlideTexts(fmt, deck[0]) + DeckTexts(fmt, deck[1..])
  }

  function DeckLines(fmt: Format, deck: seq<Slide>): seq<string> {
    if deck == [] then [] else SlideLines(fmt, deck[0]) + DeckLines(fmt, deck[1..])
  }

  function DeckBlocks(fmt: Format, deck: seq<Slide>): seq<string> {
    if deck == [] then [] else SlideBlocks(fmt, deck[0]) + DeckBlocks(fmt, deck[1..])
  }

  /** One text for every slide that has one. */
  function DeckPages(fmt: Format, deck: seq<Slide>): seq<string> {
    if deck == [] then []
    else (if SlideTexts(fmt, deck[0]) == [] then [] else [Join(SlideLines(fmt, deck[0]))]) + DeckPages(fmt, deck[1..])
  }

  // ---------------------------------------------------------------------------
  // Paragraphs
  // ---------------------------------------------------------------------------

  lemma {:induction false} HeadingRuns(fmt: Format, shape: Shape, para: Paragraph, runs: seq<Run>, given: bool)
    requires fmt.markdown && shape.kind.Heading?
    ensures GivenAfter(fmt, shape, runs, given) <==> given || WithText(runs) != []
    ensures RunPieces(fmt, shape, para, runs, given)
         == if given || WithText(runs) == [] then [] else [Piece(shape.kind.text, false)]
  {
    if runs != [] {
      HeadingRuns(fmt, shape, para, runs[1..], given || runs[0].text != "");
    }
  }

  lemma {:induction false} BodyRuns(fmt: Format, shape: Shape, para: Paragraph, runs: seq<Run>, given: bool)
    requires !(fmt.markdown && shape.kind.Heading?)
    ensures GivenAfter(fmt, shape, runs, given) == given
    ensures Texts(RunPieces(fmt, shape, para, runs, given)) == Rendered(fmt, shape, para, WithText(runs))
  {
    if runs != [] {
      BodyRuns(fmt, shape, para, runs[1..], given);
      TextsConcat(RunPiece(fmt, shape, para, runs[0], given), RunPieces(fmt, shape, para, runs[1..], given));
      BodyRun(fmt, shape, para, runs[0], given);
      RenderedFirst(fmt, shape, para, runs);
    }
  }

  lemma BodyRun(fmt: Format, shape: Shape, para: Paragraph, run: Run, given: bool)
    requires !(fmt.markdown && shape.kind.Heading?)
    ensures Texts(RunPiece(fmt, shape, para, run, given))
         == if run.text == "" then [] else [fmt.render(shape, para, run)]
  {
    if run.text != "" {
      RunHandedSingle(Span, fmt.render(shape, para, run));
    }
  }

  lemma RenderedFirst(fmt: Format, shape: Shape, para: Paragraph, runs: seq<Run>)
    requires runs != []
    ensures Rendered(fmt, shape, para, WithText(runs))
         == (if runs[0].text == "" then [] else [fmt.render(shape, para, runs[0])])
            + Rendered(fmt, shape, para, WithText(runs[1..]))
  {
  }

  /** The heading has been given before the j-th paragraph. */
  predicate GivenBefore(fmt: Format, shape: Shape, j: nat)
    requires j <= |shape.paragraphs|
  {
    fmt.markdown && shape.kind.Heading? && SaidBefore(shape, j)
  }

  lemma SaidBeforeNext(shape: Shape, j: nat)
    requires j < |shape.paragraphs|
    ensures SaidBefore(shape, j + 1) <==> SaidBefore(shape, j) || Said(shape.paragraphs[j]) != []
  {
    if SaidBefore(shape, j) {
      var i :| 0 <= i < j && Said(shape.paragraphs[i]) != [];
      assert 0 <= i < j + 1;
    }
    if Said(shape.paragraphs[j]) != [] {
      assert 0 <= j < j + 1;
    }
  }

  lemma ParagraphSays(fmt: Format, shape: Shape, j: nat)
    requires j < |shape.paragraphs|
    ensures var para := shape.paragraphs[j];
            && GivenByParagraph(fmt, shape, para, GivenBefore(fmt, shape, j)) == GivenBefore(fmt, shape, j + 1)
            && (para.blank ==> ParagraphTexts(fmt, shape, j) == [])
            && (!para.blank ==> Texts(RunPieces(fmt, shape, para, para.runs, GivenBefore(fmt, shape, j)))
                                == ParagraphTexts(fmt, shape, j))
  {
    var para := shape.paragraphs[j];
    SaidBeforeNext(shape, j);
    if fmt.markdown && shape.kind.Heading? {
      HeadingRuns(fmt, shape, para, para.runs, GivenBefore(fmt, shape, j));
      RunHandedSingle(Span, shape.kind.text);
    } else {
      BodyRuns(fmt, shape, para, para.runs, GivenBefore(fmt, shape, j));
    }
  }

  lemma {:induction false} TextOfLast(pieces: seq<Piece>)
    ensures |Texts(pieces)| == |pieces|
    ensures pieces != [] ==> Texts(pieces)[|pieces| - 1] == pieces[|pieces| - 1].text
  {
    if |pieces| > 1 {
      TextOfLast(pieces[1..]);
    } else if |pieces| == 1 {
      assert Texts(pieces) == [pieces[0].text] + Texts(pieces[1..]);
    }
  }

  lemma EndsAlike(text: string)
    ensures EndsWithSeparator(text) <==> EndsInEmptyLine(text)
  {
    if |text| >= 2 {
      assert text[|text| - 2..] == [text[|text| - 2], text[|text| - 1]];
    }
  }

  lemma ClosedLine(pieces: seq<Piece>)
    ensures Whole(Closed(pieces)) == Line(Texts(pieces)) && (Closed(pieces) == [] <==> Texts(pieces) == [])
  {
    TextOfLast(pieces);
    if pieces != [] {
      EndsAlike(pieces[|pieces| - 1].text);
      WholeConcat(pieces, [Piece(SEPARATOR, true)]);
      assert Texts([Piece(SEPARATOR, true)]) == [SEPARATOR] + Texts([Piece(SEPARATOR, true)][1..]);
      JoinSingle(SEPARATOR);
    }
  }

  // ---------------------------------------------------------------------------
  // Shapes, slides and decks
  // ---------------------------------------------------------------------------

  /** What the paragraphs have come to. */
  ghost predicate Say(parts: seq<seq<Piece>>, texts: seq<string>, lines: seq<string>) {
    && Texts(Own(Concat(parts))) == texts && EachWhole(parts) == lines
    && (Concat(parts) == [] <==> texts == [])
  }

  lemma SayMore(a: seq<seq<Piece>>, b: seq<seq<Piece>>, texts: seq<string>, lines: seq<string>, texts': seq<string>,
                lines': seq<string>)
    requires Say(a, texts, lines) && Say(b, texts', lines')
    ensures Say(a + b, texts + texts', lines + lines')
  {
    ConcatConcat(a, b);
    OwnConcat(Concat(a), Concat(b));
    TextsConcat(Own(Concat(a)), Own(Concat(b)));
  }

  lemma OneSays(fmt: Format, shape: Shape, j: nat)
    requires j < |shape.paragraphs|
    ensures Say(ParagraphPieces(fmt, shape, shape.paragraphs[j], GivenBefore(fmt, shape, j)),
                ParagraphTexts(fmt, shape, j),
                if shape.paragraphs[j].blank then [] else [Line(ParagraphTexts(fmt, shape, j))])
  {
    var para, given := shape.paragraphs[j], GivenBefore(fmt, shape, j);
    ParagraphSays(fmt, shape, j);
    if !para.blank {
      var pieces := RunPieces(fmt, shape, para, para.runs, given);
      ClosedLine(pieces);
      ConcatSingle(Closed(pieces));
      OwnClosed(fmt, shape, para, given);
    }
  }

  lemma {:induction false} ParagraphsSay(fmt: Format, shape: Shape, j: nat)
    requires j <= |shape.paragraphs|
    ensures Say(Paragraphs(fmt, shape, shape.paragraphs[j..], GivenBefore(fmt, shape, j)),
                TextsFrom(fmt, shape, j), LinesFrom(fmt, shape, j))
    decreases |shape.paragraphs| - j
  {
    if j < |shape.paragraphs| {
      var para, given := shape.paragraphs[j], GivenBefore(fmt, shape, j);
      OneSays(fmt, shape, j);
      ParagraphSays(fmt, shape, j);
      ParagraphsSay(fmt, shape, j + 1);
      FirstParagraph(fmt, shape, shape.paragraphs[j..], given);
      assert shape.paragraphs[j..][1..] == shape.paragraphs[j + 1..];
      SayMore(ParagraphPieces(fmt, shape, para, given),
              Paragraphs(fmt, shape, shape.paragraphs[j + 1..], GivenBefore(fmt, shape, j + 1)),
              ParagraphTexts(fmt, shape, j), if para.blank then [] else [Line(ParagraphTexts(fmt, shape, j))],
              TextsFrom(fmt, shape, j + 1), LinesFrom(fmt, shape, j + 1));
    }
  }

  lemma ShapeSays(fmt: Format, shape: Shape)
    ensures Texts(Own(ShapePieces(fmt, shape))) == ShapeTexts(fmt, shape)
    ensures ShapePieces(fmt, shape) == [] <==> ShapeTexts(fmt, shape) == []
    ensures Whole(ShapePieces(fmt, shape)) == Join(ShapeLines(fmt, shape))
    ensures ShapeContents(fmt, shape, Depth.Line) == ShapeLines(fmt, shape)
  {
    if shape.hasTextFrame {
      ParagraphsSay(fmt, shape, 0);
      assert shape.paragraphs[0..] == shape.paragraphs;
      EachWholeJoins(Paragraphs(fmt, shape, shape.paragraphs, false));
    }
  }

  lemma {:induction false} SlideSays(fmt: Format, slide: Slide)
    ensures ShapesContents(fmt, slide, Span) == SlideTexts(fmt, slide)
    ensures ShapesContents(fmt, slide, Depth.Line) == SlideLines(fmt, slide)
  {
    if slide != [] {
      ShapeSays(fmt, slide[0]);
      SlideSays(fmt, slide[1..]);
    }
  }

  lemma {:induction false} BlocksSay(fmt: Format, slide: Slide)
    ensures ShapesContents(fmt, slide, Block) == SlideBlocks(fmt, slide)
  {
    if slide != [] {
      ShapeSays(fmt, slide[0]);
      BlocksSay(fmt, slide[1..]);
    }
  }

  lemma {:induction false} SlideJoins(fmt: Format, slide: Slide)
    ensures SlidePieces(fmt, slide) == [] <==> SlideTexts(fmt, slide) == []
    ensures Whole(SlidePieces(fmt, slide)) == Join(SlideLines(fmt, slide))
  {
    if slide != [] {
      ShapeSays(fmt, slide[0]);
      SlideJoins(fmt, slide[1..]);
      FirstShapeJoins(fmt, slide);
    }
  }

  lemma FirstShapeJoins(fmt: Format, slide: Slide)
    requires slide != []
    ensures Whole(SlidePieces(fmt, slide)) == Whole(ShapePieces(fmt, slide[0])) + Whole(SlidePieces(fmt, slide[1..]))
    ensures Join(SlideLines(fmt, slide)) == Join(ShapeLines(fmt, slide[0])) + Join(SlideLines(fmt, slide[1..]))
  {
    WholeConcat(ShapePieces(fmt, slide[0]), SlidePieces(fmt, slide[1..]));
    JoinConcat(ShapeLines(fmt, slide[0]), SlideLines(fmt, slide[1..]));
  }

  lemma {:induction false} DeckSays(fmt: Format, deck: seq<Slide>)
    ensures SlidesContents(fmt, deck, Span) == DeckTexts(fmt, deck)
    ensures SlidesContents(fmt, deck, Depth.Line) == DeckLines(fmt, deck)
    ensures SlidesContents(fmt, deck, Block) == DeckBlocks(fmt, deck)
    ensures SlidesContents(fmt, deck, Page) == DeckPages(fmt, deck)
    ensures DeckPieces(fmt, deck) == [] <==> DeckTexts(fmt, deck) == []
    ensures Whole(DeckPieces(fmt, deck)) == Join(DeckLines(fmt, deck))
  {
    if deck != [] {
      SlideSays(fmt, deck[0]);
      BlocksSay(fmt, deck[0]);
      SlideJoins(fmt, deck[0]);
      DeckSays(fmt, deck[1..]);
      FirstSlideJoins(fmt, deck);
    }
  }

  lemma FirstSlideJoins(fmt: Format, deck: seq<Slide>)
    requires deck != []
    ensures Whole(DeckPieces(fmt, deck)) == Whole(SlidePieces(fmt, deck[0])) + Whole(DeckPieces(fmt, deck[1..]))
    ensures Join(DeckLines(fmt, deck)) == Join(SlideLines(fmt, deck[0])) + Join(DeckLines(fmt, deck[1..]))
  {
    WholeConcat(SlidePieces(fmt, deck[0]), DeckPieces(fmt, deck[1..]));
    JoinConcat(SlideLines(fmt, deck[0]), DeckLines(fmt, deck[1..]));
  }

  /** What is extracted at each depth: at span depth the rendered text of every run with text of every paragraph that
      is not blank, in order, with one heading for all that a title says in Markdown; at line depth one text per
      paragraph, closed by an empty line where it does not end in one; and at the others these lines joined, per text
      shape, per slide that says something, or for the whole deck. */
  lemma ContentsAre(fmt: Format, deck: seq<Slide>, depth: Depth)
    ensures Contents(fmt, deck, depth) ==
              match depth
              case Span => DeckTexts(fmt, deck)
              case Line => DeckLines(fmt, deck)
              case Block => DeckBlocks(fmt, deck)
              case Page => DeckPages(fmt, deck)
              case Document => if DeckTexts(fmt, deck) == [] then [] else [Join(DeckLines(fmt, deck))]
              case Unsupported => []
  {
    DeckSays(fmt, deck);
    if depth.Unsupported? {
      NothingUnsupported(fmt, deck);
    }
  }

  /** In Markdown a title or subtitle that says anything gives its heading once, and none of its runs. */
  lemma HeadingOnce(fmt: Format, shape: Shape)
    requires fmt.markdown && shape.kind.Heading? && shape.hasTextFrame
    ensures ShapeTexts(fmt, shape) ==
              if exists j :: 0 <= j < |shape.paragraphs| && Said(shape.paragraphs[j]) != [] then [shape.kind.text]
              else []
  {
    HeadingFrom(fmt, shape, 0);
  }

  lemma {:induction false} HeadingFrom(fmt: Format, shape: Shape, j: nat)
    requires fmt.markdown && shape.kind.Heading? && j <= |shape.paragraphs|
    ensures TextsFrom(fmt, shape, j) ==
              if SaidBefore(shape, |shape.paragraphs|) && !SaidBefore(shape, j) then [shape.kind.text] else []
    decreases |shape.paragraphs| - j
  {
    if j < |shape.paragraphs| {
      HeadingHere(fmt, shape, j);
      HeadingFrom(fmt, shape, j + 1);
      SaidBeforeSoAtEnd(shape, j + 1);
    }
  }

  lemma HeadingHere(fmt: Format, shape: Shape, j: nat)
    requires fmt.markdown && shape.kind.Heading? && j < |shape.paragraphs|
    ensures SaidBefore(shape, j) ==> SaidBefore(shape, j + 1)
    ensures ParagraphTexts(fmt, shape, j)
         == if SaidBefore(shape, j + 1) && !SaidBefore(shape, j) then [shape.kind.text] else []
  {
    SaidBeforeNext(shape, j);
  }

  lemma SaidBeforeSoAtEnd(shape: Shape, j: nat)
    requires j <= |shape.paragraphs|
    ensures SaidBefore(shape, j) ==> SaidBefore(shape, |shape.paragraphs|)
  {
    if SaidBefore(shape, j) {
      var i :| 0 <= i < j && Said(shape.paragraphs[i]) != [];
      assert 0 <= i < |shape.paragraphs|;
    }
  }
}
