/** `_split`: chunks on line boundaries, each closing the tags still open at its end and the next
    one reopening them. */
module Chunks {
  import opened Markup
  import opened Notify

  // -- what the loop computes for each line ----------------------------------

  /** The open tags after the lines, each fitted into the room its predecessors leave. */
  function StackAfter(lines: seq<string>): seq<Mark>
    decreases |lines|, 1
  {
    if lines == [] then [] else Track(StackAfter(lines[..|lines| - 1]), Tags(LastFitted(lines)))
  }

  function Room(stack: seq<Mark>): int {
    MAX_MESSAGE - |Opening(stack)| - TAG_SLACK
  }

  function LastFitted(lines: seq<string>): string
    requires lines != []
    decreases |lines|, 0
  {
    Fit(lines[|lines| - 1], Room(StackAfter(lines[..|lines| - 1])))
  }

  function Fitted(lines: seq<string>): seq<string> {
    if lines == [] then [] else Fitted(lines[..|lines| - 1]) + [LastFitted(lines)]
  }

  /** Reopening never takes up the slack: there is room for every line. */
  lemma {:induction false} OpeningFits(lines: seq<string>)
    ensures AllGood(StackAfter(lines)) && |Opening(StackAfter(lines))| <= MAX_MESSAGE - TAG_SLACK
  {
    if lines != [] {
      var front := lines[..|lines| - 1];
      OpeningFits(front);
      TrackIsGood(StackAfter(front), LastFitted(lines));
    }
  }

  // -- what a split is -------------------------------------------------------

  /** A chunk before it is written out: the tags it reopens, its lines, the tags it leaves open. */
  datatype Piece = Piece(start: seq<Mark>, lines: seq<string>, end: seq<Mark>)

  function TrackLines(stack: seq<Mark>, lines: seq<string>): seq<Mark> {
    if lines == [] then stack else Track(TrackLines(stack, lines[..|lines| - 1]), Tags(lines[|lines| - 1]))
  }

  function Body(p: Piece): string {
    Opening(p.start) + Join(p.lines)
  }

  function Closed(p: Piece): string {
    Body(p) + Closing(p.end)
  }

  function LastEnd(pieces: seq<Piece>): seq<Mark> {
    if pieces == [] then [] else pieces[|pieces| - 1].end
  }

  /** Each piece reopens what the one before it closed. */
  ghost predicate Chained(pieces: seq<Piece>) {
    pieces != [] ==>
      var front, p := pieces[..|pieces| - 1], pieces[|pieces| - 1];
      Chained(front) && p.start == LastEnd(front) && p.lines != [] && p.end == TrackLines(p.start, p.lines)
  }

  function Content(pieces: seq<Piece>): seq<string> {
    if pieces == [] then [] else Content(pieces[..|pieces| - 1]) + pieces[|pieces| - 1].lines
  }

  function NonBlank(lines: seq<string>): seq<string> {
    if lines == [] then []
    else NonBlank(lines[..|lines| - 1]) + (if lines[|lines| - 1] == [] then [] else [lines[|lines| - 1]])
  }

  /** All but the last chunk are closed. */
  ghost predicate Written(chunks: seq<string>, pieces: seq<Piece>) {
    && |chunks| == |pieces|
    && forall k | 0 <= k < |chunks| :: chunks[k] == if k < |pieces| - 1 then Closed(pieces[k]) else Body(pieces[k])
  }

  /** The chunks are the lines in order, blank ones aside, cut into pieces that close and reopen
      their tags. */
  ghost predicate IsSplitOf(chunks: seq<string>, pieces: seq<Piece>, lines: seq<string>) {
    && Written(chunks, pieces) && Chained(pieces)
    && NonBlank(Content(pieces)) == NonBlank(lines)
  }

  /** At no point do more closing tags stand open than the slack allows. */
  ghost predicate ClosingsFit(lines: seq<string>) {
    forall k | 0 <= k <= |lines| :: |Closing(StackAfter(lines[..k]))| <= TAG_SLACK
  }

  ghost predicate AllShort(chunks: seq<string>) {
    forall c | c in chunks :: |c| <= MAX_MESSAGE
  }

  // -- the loop --------------------------------------------------------------

  /** Between two lines: `pieces` are written as `chunks`, `current` is the piece being filled. */
  ghost predicate Midway(chunks: seq<string>, pieces: seq<Piece>, current: string, filling: Piece, lines: seq<string>) {
    && |chunks| == |pieces| && (forall k | 0 <= k < |chunks| :: chunks[k] == Closed(pieces[k]))
    && Chained(pieces) && filling.start == LastEnd(pieces) && filling.end == StackAfter(lines)
    && (if current == [] then
          filling.end == [] && filling.start == [] && NonBlank(Content(pieces)) == NonBlank(Fitted(lines))
        else
          && current == Body(filling) && filling.lines != [] && filling.end == TrackLines(filling.start, filling.lines)
          && NonBlank(Content(pieces) + filling.lines) == NonBlank(Fitted(lines)))
  }

  lemma NextLine(lines: seq<string>, raw: string)
    ensures var f := Fit(raw, Room(StackAfter(lines)));
            && LastFitted(lines + [raw]) == f
            && StackAfter(lines + [raw]) == Track(StackAfter(lines), Tags(f))
            && Fitted(lines + [raw]) == Fitted(lines) + [f]
            && NonBlank(Fitted(lines + [raw])) == NonBlank(Fitted(lines)) + (if f == [] then [] else [f])
  {
    assert (lines + [raw])[..|lines|] == lines;
    var f := Fit(raw, Room(StackAfter(lines)));
    NonBlankSnoc(Fitted(lines), f);
  }

  lemma NonBlankSnoc(lines: seq<string>, f: string)
    ensures NonBlank(lines + [f]) == NonBlank(lines) + (if f == [] then [] else [f])
  {
    assert (lines + [f])[..|lines|] == lines;
  }

  lemma TrackLinesSnoc(stack: seq<Mark>, lines: seq<string>, f: string)
    ensures TrackLines(stack, lines + [f]) == Track(TrackLines(stack, lines), Tags(f))
    ensures lines != [] ==> Join(lines + [f]) == Join(lines) + "\n" + f
    ensures Join([f]) == f
    ensures lines == [] ==> TrackLines(stack, [f]) == Track(stack, Tags(f))
  {
    assert (lines + [f])[..|lines|] == lines;
    if lines == [] {
      assert lines + [f] == [f];
    } else {
      JoinSnoc(lines, f);
    }
  }

  /** The first line of a piece that reopens nothing; a blank one leaves it unbegun. */
  lemma Starts(chunks: seq<string>, pieces: seq<Piece>, filling: Piece, lines: seq<string>, raw: string, f: string)
    requires Midway(chunks, pieces, [], filling, lines) && f == Fit(raw, Room(StackAfter(lines)))
    ensures Midway(chunks, pieces, f, Piece([], [f], Track(StackAfter(lines), Tags(f))), lines + [raw])
  {
    NextLine(lines, raw);
    TrackLinesSnoc([], [], f);
    if f != [] {
      NonBlankSnoc(Content(pieces), f);
    }
  }

  lemma OneLineMore(p: Piece, f: string, content: seq<string>)
    requires p.lines != []
    ensures var q := Piece(p.start, p.lines + [f], Track(TrackLines(p.start, p.lines), Tags(f)));
            && Body(q) == Body(p) + "\n" + f
            && q.end == TrackLines(q.start, q.lines)
            && NonBlank(content + q.lines) == NonBlank(content + p.lines) + (if f == [] then [] else [f])
  {
    TrackLinesSnoc(p.start, p.lines, f);
    NonBlankSnoc(content + p.lines, f);
    assert content + (p.lines + [f]) == content + p.lines + [f];
    assert Opening(p.start) + (Join(p.lines) + "\n" + f) == Opening(p.start) + Join(p.lines) + "\n" + f;
  }

  lemma Appends(chunks: seq<string>, pieces: seq<Piece>, current: string, filling: Piece, lines: seq<string>,
                raw: string, f: string)
    requires current != [] && Midway(chunks, pieces, current, filling, lines) && f == Fit(raw, Room(StackAfter(lines)))
    ensures Midway(chunks, pieces, current + "\n" + f,
                   Piece(filling.start, filling.lines + [f], Track(StackAfter(lines), Tags(f))), lines + [raw])
  {
    NextLine(lines, raw);
    OneLineMore(filling, f, Content(pieces));
  }

  /** A line that does not overflow the piece. */
  lemma Goes(chunks: seq<string>, pieces: seq<Piece>, current: string, filling: Piece, lines: seq<string>,
             raw: string, f: string)
    requires Midway(chunks, pieces, current, filling, lines) && f == Fit(raw, Room(StackAfter(lines)))
    ensures var after := Track(StackAfter(lines), Tags(f));
            Midway(chunks, pieces, if current != [] then current + "\n" + f else f,
                   if current != [] then Piece(filling.start, filling.lines + [f], after) else Piece([], [f], after),
                   lines + [raw])
  {
    if current != [] {
      Appends(chunks, pieces, current, filling, lines, raw, f);
    } else {
      Starts(chunks, pieces, filling, lines, raw, f);
    }
  }

  lemma PieceDone(chunks: seq<string>, pieces: seq<Piece>, current: string, filling: Piece, lines: seq<string>)
    requires current != [] && Midway(chunks, pieces, current, filling, lines)
    ensures Chained(pieces + [filling]) && LastEnd(pieces + [filling]) == filling.end
    ensures Content(pieces + [filling]) == Content(pieces) + filling.lines
    ensures NonBlank(Content(pieces + [filling])) == NonBlank(Fitted(lines))
  {
    assert (pieces + [filling])[..|pieces|] == pieces;
  }

  lemma NewPiece(stack: seq<Mark>, f: string, content: seq<string>)
    requires AllGood(stack)
    ensures var p := Piece(stack, [f], Track(stack, Tags(f)));
            && Body(p) == Opening(stack) + f && p.end == TrackLines(p.start, p.lines)
            && (Body(p) == [] ==> p.start == [] && p.end == [] && f == [])
            && NonBlank(content + p.lines) == NonBlank(content) + (if f == [] then [] else [f])
  {
    TrackLinesSnoc(stack, [], f);
    NonBlankSnoc(content, f);
    OpeningOpens(stack);
  }

  lemma ChunksSnoc(chunks: seq<string>, pieces: seq<Piece>, p: Piece)
    requires |chunks| == |pieces| && forall k | 0 <= k < |chunks| :: chunks[k] == Closed(pieces[k])
    ensures var c, q := chunks + [Closed(p)], pieces + [p];
            |c| == |q| && forall k | 0 <= k < |c| :: c[k] == Closed(q[k])
  {
  }

  lemma Flushes(chunks: seq<string>, pieces: seq<Piece>, current: string, filling: Piece, lines: seq<string>,
                raw: string, f: string)
    requires current != [] && Midway(chunks, pieces, current, filling, lines) && f == Fit(raw, Room(StackAfter(lines)))
    ensures var stack := StackAfter(lines);
            Midway(chunks + [current + Closing(stack)], pieces + [filling], Opening(stack) + f,
                   Piece(stack, [f], Track(stack, Tags(f))), lines + [raw])
  {
    PieceDone(chunks, pieces, current, filling, lines);
    NextLine(lines, raw);
    OpeningFits(lines);
    NewPiece(StackAfter(lines), f, Content(pieces + [filling]));
    ChunksSnoc(chunks, pieces, filling);
  }

  /** Once the lines are through, the piece being filled is the last. */
  lemma Ends(chunks: seq<string>, pieces: seq<Piece>, current: string, filling: Piece, lines: seq<string>)
    requires Midway(chunks, pieces, current, filling, lines)
    ensures current != [] ==> IsSplitOf(chunks + [current], pieces + [filling], Fitted(lines))
    ensures current == [] ==> IsSplitOf(chunks, pieces, Fitted(lines))
    ensures LastEnd(if current == [] then pieces else pieces + [filling]) == StackAfter(lines)
  {
    if current != [] {
      PieceDone(chunks, pieces, current, filling, lines);
    } else if pieces != [] {
      var p := pieces[|pieces| - 1];
      assert Closed(p) == Body(p) + [] == Body(p);
    }
  }

  // -- no chunk is closed early ----------------------------------------------

  /** With this line too, and the tags then open closed, the piece would be too long for a message. */
  predicate Overflows(p: Piece, line: string) {
    |Body(p) + "\n" + line| + |Closing(Track(p.end, Tags(line)))| > 4096
  }

  /** No piece had room for the line that begins the next. */
  ghost predicate Greedy(pieces: seq<Piece>) {
    forall k | 0 < k < |pieces| :: pieces[k].lines != [] && Overflows(pieces[k - 1], pieces[k].lines[0])
  }

  /** Between two lines: nor had the last one for the line that began the piece being filled. */
  ghost predicate GreedySoFar(pieces: seq<Piece>, current: string, filling: Piece) {
    && Greedy(pieces)
    && (pieces != [] ==>
          var last := pieces[|pieces| - 1];
          if current == [] then |Body(last)| >= 4096
          else filling.lines != [] && Overflows(last, filling.lines[0]))
  }

  /** Only the blank first line of a piece that reopens nothing leaves it unbegun. */
  lemma NothingBegun(stack: seq<Mark>, line: string)
    requires AllGood(stack) && Opening(stack) + line == []
    ensures line == [] && Closing(Track(stack, Tags(line))) == []
  {
    NewPiece(stack, line, []);
    assert Tags(line) == [];
  }

  lemma GreedyFlush(pieces: seq<Piece>, current: string, filling: Piece, line: string)
    requires current != [] && GreedySoFar(pieces, current, filling) && AllGood(filling.end)
    requires current == Body(filling) && Overflows(filling, line)
    ensures GreedySoFar(pieces + [filling], Opening(filling.end) + line,
                        Piece(filling.end, [line], Track(filling.end, Tags(line))))
  {
    if Opening(filling.end) + line == [] {
      NothingBegun(filling.end, line);
    }
  }

  lemma GreedyGoes(pieces: seq<Piece>, current: string, filling: Piece, line: string, after: seq<Mark>)
    requires GreedySoFar(pieces, current, filling) && (current != [] ==> filling.lines != [])
    ensures GreedySoFar(pieces, if current != [] then current + "\n" + line else line,
                        if current != [] then Piece(filling.start, filling.lines + [line], after)
                        else Piece([], [line], after))
  {
  }

  lemma GreedyEnds(pieces: seq<Piece>, current: string, filling: Piece)
    requires GreedySoFar(pieces, current, filling)
    ensures Greedy(if current != [] then pieces + [filling] else pieces)
  {
  }

  function SplitLines(text: string): seq<string> {
    if |text| <= MAX_MESSAGE then Lines(text) else Fitted(Lines(text))
  }

  /** `_split` */
  method Split(text: string) returns (chunks: seq<string>, ghost pieces: seq<Piece>)
    ensures |text| <= MAX_MESSAGE ==> chunks == [text]
    ensures IsSplitOf(chunks, pieces, SplitLines(text))
    ensures LastEnd(pieces) == if |text| <= MAX_MESSAGE then TrackLines([], Lines(text)) else StackAfter(Lines(text))
    ensures |text| <= MAX_MESSAGE || ClosingsFit(Lines(text)) ==> forall c | c in chunks :: |c| <= 4096
    ensures Greedy(pieces)
  {
    if |text| <= MAX_MESSAGE {
      chunks := [text];
      pieces := [Piece([], Lines(text), TrackLines([], Lines(text)))];
      OnePiece(text);
    } else {
      chunks, pieces := SplitLong(Lines(text));
    }
  }

  method SplitLong(lines: seq<string>) returns (chunks: seq<string>, ghost pieces: seq<Piece>)
    ensures IsSplitOf(chunks, pieces, Fitted(lines)) && LastEnd(pieces) == StackAfter(lines)
    ensures (ClosingsFit(lines) ==> AllShort(chunks)) && Greedy(pieces)
  {
    chunks, pieces := [], [];
    var current, stack := "", [];
    ghost var filling := Piece([], [], []);
    for i := 0 to |lines|
      invariant stack == StackAfter(lines[..i]) && Midway(chunks, pieces, current, filling, lines[..i])
      invariant GreedySoFar(pieces, current, filling)
      invariant ClosingsFit(lines) ==> AllShort(chunks) && |current| + |Closing(stack)| <= MAX_MESSAGE
    {
      ghost var done := lines[..i];
      ReachesNext(lines, i);
      var line := Fit(lines[i], Room(stack));
      var after := Track(stack, Tags(line));
      var candidate := if current != [] then current + "\n" + line else line;
      if current != [] && |candidate| + |Closing(after)| > MAX_MESSAGE {
        Flushes(chunks, pieces, current, filling, done, lines[i], line);
        OpeningFits(done);
        GreedyFlush(pieces, current, filling, line);
        chunks, pieces := chunks + [current + Closing(stack)], pieces + [filling];
        current := Opening(stack) + line;
        filling := Piece(stack, [line], after);
      } else {
        Goes(chunks, pieces, current, filling, done, lines[i], line);
        GreedyGoes(pieces, current, filling, line, after);
        filling := if current != [] then Piece(filling.start, filling.lines + [line], after)
                   else Piece([], [line], after);
        current := candidate;
      }
      stack := after;
    }
    assert lines[..|lines|] == lines;
    Ends(chunks, pieces, current, filling, lines);
    GreedyEnds(pieces, current, filling);
    if current != [] {
      chunks, pieces := chunks + [current], pieces + [filling];
    }
  }

  lemma ReachesNext(lines: seq<string>, i: nat)
    requires i < |lines|
    ensures var f := Fit(lines[i], Room(StackAfter(lines[..i])));
            var after := Track(StackAfter(lines[..i]), Tags(f));
            && lines[..i + 1] == lines[..i] + [lines[i]]
            && StackAfter(lines[..i + 1]) == after
            && |Opening(StackAfter(lines[..i]))| + |f| <= MAX_MESSAGE - TAG_SLACK
            && (ClosingsFit(lines) ==> |Closing(after)| <= TAG_SLACK)
  {
    assert lines[..i + 1] == lines[..i] + [lines[i]];
    OpeningFits(lines[..i]);
    NextLine(lines[..i], lines[i]);
  }

  lemma AloneInChain(p: Piece)
    requires p.start == [] && p.lines != [] && p.end == TrackLines([], p.lines)
    ensures Chained([p]) && Content([p]) == p.lines
  {
    assert [p][..0] == [];
    assert Content([p]) == [] + p.lines;
  }

  lemma OnePiece(text: string)
    ensures IsSplitOf([text], [Piece([], Lines(text), TrackLines([], Lines(text)))], Lines(text))
  {
    var p := Piece([], Lines(text), TrackLines([], Lines(text)));
    AloneInChain(p);
    LinesJoin(text);
    assert Body(p) == [] + text == text;
  }

  // -- every chunk is markup of its own --------------------------------------

  predicate NestsLines(stack: seq<Mark>, lines: seq<string>) {
    lines == [] ||
    (NestsLines(stack, lines[..|lines| - 1]) &&
      Nests(TrackLines(stack, lines[..|lines| - 1]), Tags(lines[|lines| - 1])))
  }

  /** Tags within single lines, properly nested over all of them, all closed in the end. */
  ghost predicate WellMarked(lines: seq<string>) {
    (forall l | l in lines :: Clean(l)) && NestsLines([], lines) && TrackLines([], lines) == []
  }

  ghost predicate NoneIsOverLong(lines: seq<string>) {
    forall k | 0 <= k < |lines| :: |lines[k]| <= Room(TrackLines([], lines[..k]))
  }

  lemma FrontIsNotOverLong(lines: seq<string>)
    requires NoneIsOverLong(lines) && lines != []
    ensures NoneIsOverLong(lines[..|lines| - 1])
    ensures |lines[|lines| - 1]| <= Room(TrackLines([], lines[..|lines| - 1]))
  {
    var front := lines[..|lines| - 1];
    forall k | 0 <= k < |front|
      ensures |front[k]| <= Room(TrackLines([], front[..k]))
    {
      assert front[..k] == lines[..k];
    }
  }

  lemma {:induction false} NothingIsCut(lines: seq<string>)
    requires NoneIsOverLong(lines)
    ensures Fitted(lines) == lines && StackAfter(lines) == TrackLines([], lines)
  {
    if lines != [] {
      var front := lines[..|lines| - 1];
      assert lines == front + [lines[|lines| - 1]];
      FrontIsNotOverLong(lines);
      NothingIsCut(front);
    }
  }

  lemma NewlineHasNoTag(line: string)
    ensures Tags("\n" + line) == Tags(line) && Clean("\n" + line) == Clean(line)
  {
    assert ("\n" + line)[1..] == line;
  }

  /** The tags of joined lines are those of the lines, one after the other. */
  lemma {:induction false} JoinIsTracked(stack: seq<Mark>, lines: seq<string>)
    requires forall l | l in lines :: Clean(l)
    ensures Clean(Join(lines))
    ensures Track(stack, Tags(Join(lines))) == TrackLines(stack, lines)
    ensures Nests(stack, Tags(Join(lines))) <==> NestsLines(stack, lines)
  {
    if |lines| == 1 {
      assert lines[..0] == [];
    } else if lines != [] {
      var front, last := lines[..|lines| - 1], lines[|lines| - 1];
      assert lines == front + [last];
      JoinIsTracked(stack, front);
      JoinSnoc(front, last);
      OneLineJoined(Join(front), last);
      TrackOfSum(stack, Tags(Join(front)), Tags(last));
    }
  }

  lemma OneLineJoined(front: string, last: string)
    requires Clean(front) && Clean(last)
    ensures Clean(front + "\n" + last) && Tags(front + "\n" + last) == Tags(front) + Tags(last)
  {
    NewlineHasNoTag(last);
    TagsOfSum(front, "\n" + last);
    assert front + "\n" + last == front + ("\n" + last);
  }

  lemma {:induction false} LinesOfSum(stack: seq<Mark>, a: seq<string>, b: seq<string>)
    ensures TrackLines(stack, a + b) == TrackLines(TrackLines(stack, a), b)
    ensures NestsLines(stack, a + b) <==> NestsLines(stack, a) && NestsLines(TrackLines(stack, a), b)
  {
    if b == [] {
      assert a + b == a;
    } else {
      assert (a + b)[..|a + b| - 1] == a + b[..|b| - 1];
      LinesOfSum(stack, a, b[..|b| - 1]);
    }
  }

  lemma {:induction false} NonBlankAre(lines: seq<string>, l: string)
    ensures l in NonBlank(lines) <==> l in lines && l != []
  {
    if lines != [] {
      assert lines == lines[..|lines| - 1] + [lines[|lines| - 1]];
      NonBlankAre(lines[..|lines| - 1], l);
    }
  }

  lemma {:induction false} BlanksDoNotMatter(stack: seq<Mark>, lines: seq<string>)
    ensures TrackLines(stack, NonBlank(lines)) == TrackLines(stack, lines)
    ensures NestsLines(stack, NonBlank(lines)) <==> NestsLines(stack, lines)
  {
    if lines != [] {
      var front, last := lines[..|lines| - 1], lines[|lines| - 1];
      BlanksDoNotMatter(stack, front);
      if last == [] {
        assert NonBlank(lines) == NonBlank(front);
        assert Tags(last) == [];
      } else {
        assert NonBlank(lines) == NonBlank(front) + [last];
        assert (NonBlank(front) + [last])[..|NonBlank(front)|] == NonBlank(front);
      }
    }
  }

  lemma {:induction false} PiecesNest(pieces: seq<Piece>)
    requires Chained(pieces) && NestsLines([], Content(pieces))
    ensures TrackLines([], Content(pieces)) == LastEnd(pieces) && AllGood(LastEnd(pieces))
    ensures forall p | p in pieces :: AllGood(p.start) && p.end == TrackLines(p.start, p.lines)
    ensures forall p | p in pieces :: NestsLines(p.start, p.lines)
  {
    if pieces != [] {
      var front, p := pieces[..|pieces| - 1], pieces[|pieces| - 1];
      assert pieces == front + [p];
      LinesOfSum([], Content(front), p.lines);
      PiecesNest(front);
      LinesAreGood(p.start, p.lines);
    }
  }

  lemma {:induction false} LinesAreGood(stack: seq<Mark>, lines: seq<string>)
    requires AllGood(stack)
    ensures AllGood(TrackLines(stack, lines))
  {
    if lines != [] {
      LinesAreGood(stack, lines[..|lines| - 1]);
      TrackIsGood(TrackLines(stack, lines[..|lines| - 1]), lines[|lines| - 1]);
    }
  }

  /** Reopened, tracked through its lines and closed again, a piece comes out even. */
  lemma PieceIsBalanced(p: Piece)
    requires AllGood(p.start) && p.end == TrackLines(p.start, p.lines) && NestsLines(p.start, p.lines)
    requires forall l | l in p.lines :: Clean(l)
    ensures Balanced(Closed(p))
  {
    var o, j, c := Opening(p.start), Join(p.lines), Closing(p.end);
    OpeningOpens(p.start);
    JoinIsTracked(p.start, p.lines);
    LinesAreGood(p.start, p.lines);
    ClosingCloses(p.end);
    TagsOfSum(o, j);
    TagsOfSum(o + j, c);
    TrackOfSum([], Tags(o), Tags(j));
    TrackOfSum([], Tags(o + j), Tags(c));
  }

  lemma PiecesAreBalanced(pieces: seq<Piece>, lines: seq<string>)
    requires Chained(pieces) && NonBlank(Content(pieces)) == NonBlank(lines) && WellMarked(lines)
    ensures LastEnd(pieces) == []
    ensures forall k | 0 <= k < |pieces| :: Balanced(Closed(pieces[k]))
  {
    BlanksDoNotMatter([], lines);
    BlanksDoNotMatter([], Content(pieces));
    PiecesNest(pieces);
    forall k | 0 <= k < |pieces|
      ensures Balanced(Closed(pieces[k]))
    {
      var p := pieces[k];
      forall l | l in p.lines
        ensures Clean(l)
      {
        LineIsInContent(pieces, p, l);
        NonBlankAre(Content(pieces), l);
        NonBlankAre(lines, l);
      }
      PieceIsBalanced(p);
    }
  }

  lemma {:induction false} LineIsInContent(pieces: seq<Piece>, p: Piece, l: string)
    requires p in pieces && l in p.lines
    ensures l in Content(pieces)
  {
    var front := pieces[..|pieces| - 1];
    assert pieces == front + [pieces[|pieces| - 1]];
    if p in front {
      LineIsInContent(front, p, l);
    }
  }

  /** Where no line is over-long, every chunk of well-marked text is balanced on its own, and
      between what the chunks reopen and close stand all the non-blank lines, in order. */
  lemma ChunksAreBalanced(text: string, chunks: seq<string>, pieces: seq<Piece>)
    requires IsSplitOf(chunks, pieces, SplitLines(text)) && WellMarked(Lines(text))
    requires |text| <= MAX_MESSAGE || NoneIsOverLong(Lines(text))
    ensures NonBlank(Content(pieces)) == NonBlank(Lines(text))
    ensures forall k | 0 <= k < |chunks| :: Balanced(chunks[k])
  {
    if |text| > MAX_MESSAGE {
      NothingIsCut(Lines(text));
    }
    PiecesAreBalanced(pieces, Lines(text));
    AllClosed(chunks, pieces);
  }

  lemma AllClosed(chunks: seq<string>, pieces: seq<Piece>)
    requires Written(chunks, pieces) && LastEnd(pieces) == []
    ensures forall k | 0 <= k < |chunks| :: chunks[k] == Closed(pieces[k])
  {
    if pieces != [] {
      var p := pieces[|pieces| - 1];
      assert Closed(p) == Body(p) + [] == Body(p);
    }
  }

  // -- over-long lines -------------------------------------------------------

  lemma {:induction false} FittedAreClean(lines: seq<string>)
    requires forall l | l in lines :: Tidy(l)
    ensures forall l | l in Fitted(lines) :: Clean(l)
  {
    if lines != [] {
      var front := lines[..|lines| - 1];
      assert forall l | l in front :: l in lines;
      FittedAreClean(front);
      FittedIsTidy(lines[|lines| - 1], Room(StackAfter(front)));
    }
  }

  lemma {:induction false} PiecesAreGood(pieces: seq<Piece>)
    requires Chained(pieces)
    ensures AllGood(LastEnd(pieces))
    ensures forall k | 0 <= k < |pieces| :: AllGood(pieces[k].start) && AllGood(pieces[k].end)
  {
    if pieces != [] {
      var front, p := pieces[..|pieces| - 1], pieces[|pieces| - 1];
      PiecesAreGood(front);
      LinesAreGood(p.start, p.lines);
      assert forall k | 0 <= k < |front| :: pieces[k] == front[k];
    }
  }

  lemma PieceIsWhole(p: Piece)
    requires AllGood(p.start) && AllGood(p.end) && forall l | l in p.lines :: Clean(l)
    ensures Clean(Body(p)) && Clean(Closed(p))
  {
    OpeningOpens(p.start);
    JoinIsTracked(p.start, p.lines);
    ClosingCloses(p.end);
    TagsOfSum(Opening(p.start), Join(p.lines));
    TagsOfSum(Body(p), Closing(p.end));
  }

  /** Even where lines are over-long and cut, no chunk of escaped text holds half a tag. */
  lemma ChunksAreWhole(text: string, chunks: seq<string>, pieces: seq<Piece>)
    requires IsSplitOf(chunks, pieces, SplitLines(text)) && forall l | l in Lines(text) :: Tidy(l)
    ensures forall k | 0 <= k < |chunks| :: Clean(chunks[k])
  {
    var lines := SplitLines(text);
    SplitLinesAreClean(text);
    PiecesAreGood(pieces);
    forall k | 0 <= k < |chunks|
      ensures Clean(chunks[k])
    {
      forall l | l in pieces[k].lines
        ensures Clean(l)
      {
        LineIsInContent(pieces, pieces[k], l);
        NonBlankAre(Content(pieces), l);
        NonBlankAre(lines, l);
      }
      PieceIsWhole(pieces[k]);
    }
  }

  lemma SplitLinesAreClean(text: string)
    requires forall l | l in Lines(text) :: Tidy(l)
    ensures forall l | l in SplitLines(text) :: Clean(l)
  {
    FittedAreClean(Lines(text));
    forall l | l in Lines(text)
      ensures Clean(l)
    {
      TidyIsClean(l);
    }
  }
}
