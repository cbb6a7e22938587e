/**
What the log reader makes of a log: it returns exactly the payload its writer
wrapped, refuses a second observation, and reports a log without any.
*/
module LogTheorems {
  import opened JsonText
  import opened LogReader
  import opened Options

  // ---------- logs ----------

  predicate NoFeed(bytes: seq<byte>) { LF !in bytes }

  /** A terminated line: one line feed, at its end. */
  predicate IsLine(line: seq<byte>) {
    line != [] && line[|line| - 1] == LF && NoFeed(line[..|line| - 1])
  }

  /** Any terminated line that does not carry the prefix. */
  predicate IsNoise(f: Format, line: seq<byte>) {
    IsLine(line) && !(f.prefix <= line)
  }

  function Flatten(lines: seq<seq<byte>>): seq<byte> {
    if lines == [] then [] else lines[0] + Flatten(lines[1..])
  }

  /** How a line ends; only the last one of a log can lack its line feed. */
  datatype Ending = LineFeed | CarriageReturnLineFeed | CarriageReturn | Nothing

  function EndingBytes(e: Ending): seq<byte> {
    match e
    case LineFeed => [LF]
    case CarriageReturnLineFeed => [CR, LF]
    case CarriageReturn => [CR]
    case Nothing => []
  }

  predicate HasFeed(e: Ending) { e == LineFeed || e == CarriageReturnLineFeed }

  /** The next line of a log, given what follows it. */
  predicate IsEnded(line: seq<byte>, rest: seq<byte>) {
    IsLine(line) || (NoFeed(line) && rest == [])
  }

  /** One piece of a wrapped payload and the line ending written after it. */
  datatype Piece = Piece(text: seq<byte>, ending: Ending)

  function PieceLine(p: Piece): seq<byte> { p.text + EndingBytes(p.ending) }

  /** Every piece ends its line, but the last one need not at the end of the log. */
  predicate PiecesEnd(pieces: seq<Piece>, rest: seq<byte>) {
    forall i :: 0 <= i < |pieces| ==> HasFeed(pieces[i].ending) || (i == |pieces| - 1 && rest == [])
  }

  function Joined(pieces: seq<Piece>): seq<byte> {
    if pieces == [] then [] else pieces[0].text + Joined(pieces[1..])
  }

  function PieceLines(pieces: seq<Piece>): seq<byte> {
    if pieces == [] then [] else PieceLine(pieces[0]) + PieceLines(pieces[1..])
  }

  /** Everything still to be read stays within the format's total. */
  predicate Fits(f: Format, at: Cursor) {
    f.maxTotal.Some? ==> at.read + |at.rest| <= f.maxTotal.value
  }

  /** The prefix is one printable token. */
  predicate GoodFormat(f: Format) { f.prefix != [] && IsPrintable(f.prefix) }

  lemma FixedFormatsAreGood()
    ensures GoodFormat(PARITY_FORMAT) && GoodFormat(WALK_FORWARD_FORMAT)
  {
    assert IsPrintable(TRADING) && IsPrintable(BOT_LAB) && IsPrintable(LEAN);
    assert IsPrintable(PARITY) && IsPrintable(WALK) && IsPrintable(FORWARD);
    PrintableConcat(TRADING, BOT_LAB);
    PrintableConcat(TRADING + BOT_LAB, LEAN);
    PrintableConcat(TRADING + BOT_LAB + LEAN, PARITY);
    PrintableConcat(TRADING + BOT_LAB + LEAN, WALK);
    PrintableConcat(TRADING + BOT_LAB + LEAN + WALK, FORWARD);
  }

  lemma PrintableConcat(front: seq<byte>, back: seq<byte>)
    requires IsPrintable(front) && IsPrintable(back)
    ensures IsPrintable(front + back)
  {
  }

  // ---------- single lines ----------

  lemma {:induction false} WholeLine(line: seq<byte>, rest: seq<byte>, limit: nat)
    requires IsLine(line) && |line| <= limit
    ensures LineOf(line + rest, limit) == line
    decreases |line|
  {
    var all := line + rest;
    assert all[0] == line[0];
    if |line| > 1 {
      assert line[0] == line[..|line| - 1][0];
      var tail := line[1..];
      assert tail[..|tail| - 1] == line[..|line| - 1][1..];
      assert all[1..] == tail + rest;
      WholeLine(tail, rest, limit - 1);
    }
  }

  lemma {:induction false} CutLine(bytes: seq<byte>, rest: seq<byte>)
    requires NoFeed(bytes)
    ensures LineOf(bytes + rest, |bytes|) == bytes
    decreases |bytes|
  {
    if bytes != [] {
      var all := bytes + rest;
      assert all[0] == bytes[0] && all[1..] == bytes[1..] + rest;
      CutLine(bytes[1..], rest);
    }
  }

  lemma {:induction false} LastLine(tail: seq<byte>, limit: nat)
    requires NoFeed(tail) && |tail| <= limit
    ensures LineOf(tail, limit) == tail
    decreases |tail|
  {
    if tail != [] {
      LastLine(tail[1..], limit - 1);
    }
  }

  lemma NextWholeLine(f: Format, line: seq<byte>, rest: seq<byte>, read: nat)
    requires IsLine(line) && |line| <= MaxLine(f) + 1
    requires Fits(f, Cursor(line + rest, read))
    ensures NextLine(f, Cursor(line + rest, read)) == Ok(line)
    ensures After(Cursor(line + rest, read), line) == Cursor(rest, read + |line|)
  {
    WholeLine(line, rest, MaxLine(f) + 1);
    assert (line + rest)[|line|..] == rest;
  }

  lemma NextEndedLine(f: Format, line: seq<byte>, rest: seq<byte>, read: nat)
    requires IsEnded(line, rest) && |line| <= MaxLine(f) + 1
    requires Fits(f, Cursor(line + rest, read))
    ensures NextLine(f, Cursor(line + rest, read)) == Ok(line)
    ensures After(Cursor(line + rest, read), line) == Cursor(rest, read + |line|)
  {
    hide NextLine, LineOf;
    if IsLine(line) {
      NextWholeLine(f, line, rest, read);
    } else {
      assert line + rest == line;
      NextLastLine(f, line, read);
    }
  }

  /** A line longer than the read chunk is read in chunks of exactly the limit. */
  lemma NextChunk(f: Format, bytes: seq<byte>, rest: seq<byte>, read: nat)
    requires NoFeed(bytes) && |bytes| == MaxLine(f) + 1
    requires Fits(f, Cursor(bytes + rest, read))
    ensures NextLine(f, Cursor(bytes + rest, read)) == Ok(bytes)
    ensures After(Cursor(bytes + rest, read), bytes) == Cursor(rest, read + |bytes|)
  {
    CutLine(bytes, rest);
    assert (bytes + rest)[|bytes|..] == rest;
  }

  // ---------- one step of the reader ----------

  lemma ReadPlain(f: Format, at: Cursor, line: seq<byte>, selected: Option<seq<byte>>)
    requires NextLine(f, at) == Ok(line) && line <= at.rest
    requires line != [] && |line| <= MaxLine(f) && !(f.prefix <= line)
    ensures ReadFrom(f, at, selected) == ReadFrom(f, After(at, line), selected)
  {
    hide NextLine, ReadWrapped, SkipLine, StripLineEnding;
  }

  lemma ReadLong(f: Format, at: Cursor, line: seq<byte>, next: Cursor, selected: Option<seq<byte>>)
    requires NextLine(f, at) == Ok(line) && line <= at.rest
    requires |line| > MaxLine(f) && !(f.prefix <= line)
    requires SkipLine(f, line, After(at, line)) == Ok(next)
    ensures ReadFrom(f, at, selected) == ReadFrom(f, next, selected)
  {
    hide NextLine, ReadWrapped, SkipLine, StripLineEnding;
  }

  lemma ReadTooLong(f: Format, at: Cursor, line: seq<byte>, next: Cursor, selected: Option<seq<byte>>)
    requires NextLine(f, at) == Ok(line) && line <= at.rest
    requires |line| > MaxLine(f) && f.prefix <= line
    requires SkipLine(f, line, After(at, line)) == Ok(next)
    ensures ReadFrom(f, at, selected) == Err(PayloadTooLarge)
  {
    hide NextLine, ReadWrapped, SkipLine, StripLineEnding;
  }

  lemma ReadMarked(f: Format, at: Cursor, line: seq<byte>, payload: seq<byte>, next: Cursor)
    requires NextLine(f, at) == Ok(line) && line <= at.rest
    requires line != [] && |line| <= MaxLine(f) && f.prefix <= line
    requires Drop(StripLineEnding(line), |f.prefix|) != []
    requires ReadWrapped(f, Drop(StripLineEnding(line), |f.prefix|), After(at, line)) == Ok((payload, next))
    ensures ReadFrom(f, at, None) == ReadFrom(f, next, Some(payload))
  {
    hide NextLine, ReadWrapped, SkipLine, StripLineEnding;
  }

  lemma ReadAgain(f: Format, at: Cursor, line: seq<byte>, earlier: seq<byte>)
    requires NextLine(f, at) == Ok(line)
    requires line != [] && |line| <= MaxLine(f) && f.prefix <= line
    ensures ReadFrom(f, at, Some(earlier)) == Err(ManyObservations)
  {
    hide NextLine, ReadWrapped, SkipLine, StripLineEnding;
  }

  // ---------- noise ----------

  /** What is left of an overlong line is skipped to its end. */
  lemma {:induction false} SkipToLineEnd(f: Format, chunk: seq<byte>, line: seq<byte>, rest: seq<byte>, read: nat)
    requires chunk != [] && !EndsWith(chunk, LF)
    requires IsLine(line) && Fits(f, Cursor(line + rest, read))
    ensures SkipLine(f, chunk, Cursor(line + rest, read)) == Ok(Cursor(rest, read + |line|))
    decreases |line|
  {
    hide NextLine, LineOf, IsLine, SkipLine;
    var limit := MaxLine(f) + 1;
    if |line| <= limit {
      NextWholeLine(f, line, rest, read);
      SkipLineStep(f, chunk, Cursor(line + rest, read));
      LineEnds(line);
      SkipNothing(f, line, Cursor(rest, read + |line|));
    } else {
      var head, tail := line[..limit], line[limit..];
      LongLineSplits(line, limit);
      assert line + rest == head + (tail + rest);
      NextChunk(f, head, tail + rest, read);
      SkipLineStep(f, chunk, Cursor(line + rest, read));
      SkipToLineEnd(f, head, tail, rest, read + |head|);
    }
  }

  lemma LineEnds(line: seq<byte>)
    requires IsLine(line)
    ensures EndsWith(line, LF)
  {
  }

  lemma LongLineSplits(line: seq<byte>, limit: nat)
    requires IsLine(line) && 0 < limit < |line|
    ensures NoFeed(line[..limit]) && IsLine(line[limit..]) && line == line[..limit] + line[limit..]
    ensures !EndsWith(line[..limit], LF)
  {
    var body := line[..|line| - 1];
    assert forall i :: 0 <= i < limit ==> line[i] == body[i];
    var tail := line[limit..];
    assert tail[..|tail| - 1] == body[limit..];
  }

  /** A line without the prefix, however long, changes nothing but the position. */
  lemma NoiseSkipped(f: Format, line: seq<byte>, rest: seq<byte>, read: nat, selected: Option<seq<byte>>)
    requires IsNoise(f, line) && Fits(f, Cursor(line + rest, read))
    ensures ReadFrom(f, Cursor(line + rest, read), selected)
         == ReadFrom(f, Cursor(rest, read + |line|), selected)
  {
    hide ReadFrom, NextLine, SkipLine, LineOf;
    var limit := MaxLine(f) + 1;
    var at, end := Cursor(line + rest, read), Cursor(rest, read + |line|);
    if |line| <= limit {
      NextWholeLine(f, line, rest, read);
      if |line| < limit {
        ReadPlain(f, at, line, selected);
      } else {
        SkipNothing(f, line, end);
        ReadLong(f, at, line, end, selected);
      }
    } else {
      var head, tail := line[..limit], line[limit..];
      LongLineSplits(line, limit);
      assert line + rest == head + (tail + rest);
      NextChunk(f, head, tail + rest, read);
      SkipToLineEnd(f, head, tail, rest, read + |head|);
      assert f.prefix <= head ==> f.prefix <= line;
      ReadLong(f, at, head, end, selected);
    }
  }

  lemma SkipNothing(f: Format, line: seq<byte>, at: Cursor)
    requires EndsWith(line, LF)
    ensures SkipLine(f, line, at) == Ok(at)
  {
  }

  lemma {:induction false} NoiseLinesSkipped(
    f: Format, lines: seq<seq<byte>>, rest: seq<byte>, read: nat, selected: Option<seq<byte>>)
    requires forall l :: l in lines ==> IsNoise(f, l)
    requires Fits(f, Cursor(Flatten(lines) + rest, read))
    ensures ReadFrom(f, Cursor(Flatten(lines) + rest, read), selected)
         == ReadFrom(f, Cursor(rest, read + |Flatten(lines)|), selected)
    decreases |lines|
  {
    hide ReadFrom, IsNoise;
    if lines == [] {
      assert Flatten(lines) + rest == rest;
    } else {
      var more := Flatten(lines[1..]) + rest;
      assert Flatten(lines) + rest == lines[0] + more;
      NoiseSkipped(f, lines[0], more, read, selected);
      NoiseLinesSkipped(f, lines[1..], rest, read + |lines[0]|, selected);
    }
  }

  /** An unterminated last line without the prefix. */
  predicate IsTail(f: Format, tail: seq<byte>) {
    NoFeed(tail) && (tail == [] || !(f.prefix <= tail))
  }

  lemma NextLastLine(f: Format, tail: seq<byte>, read: nat)
    requires NoFeed(tail) && |tail| <= MaxLine(f) + 1
    requires Fits(f, Cursor(tail, read))
    ensures NextLine(f, Cursor(tail, read)) == Ok(tail)
    ensures After(Cursor(tail, read), tail) == Cursor([], read + |tail|)
    ensures !EndsWith(tail, LF)
  {
    LastLine(tail, MaxLine(f) + 1);
    assert tail[|tail|..] == [];
    if tail != [] {
      assert tail[|tail| - 1] in tail;
    }
  }

  lemma {:induction false} SkipTail(f: Format, chunk: seq<byte>, tail: seq<byte>, read: nat)
    requires chunk != [] && !EndsWith(chunk, LF)
    requires NoFeed(tail) && Fits(f, Cursor(tail, read))
    ensures SkipLine(f, chunk, Cursor(tail, read)) == Ok(Cursor([], read + |tail|))
    decreases |tail|
  {
    hide LineOf, NextLine;
    FeedlessDoesNotEnd(tail);
    var limit := MaxLine(f) + 1;
    if |tail| <= limit {
      NextLastLine(f, tail, read);
      NextLastLine(f, [], read + |tail|);
      assert SkipLine(f, tail, Cursor([], read + |tail|)) == Ok(Cursor([], read + |tail|));
    } else {
      var head, more := tail[..limit], tail[limit..];
      assert tail == head + more && NoFeed(head) && NoFeed(more);
      NextChunk(f, head, more, read);
      FeedlessDoesNotEnd(head);
      SkipTail(f, head, more, read + |head|);
    }
  }

  lemma EndOfLog(f: Format, read: nat, selected: Option<seq<byte>>)
    requires Fits(f, Cursor([], read))
    ensures ReadFrom(f, Cursor([], read), selected)
         == match selected case None => Err(NoObservation) case Some(payload) => Ok(payload)
  {
    hide ReadWrapped, SkipLine;
  }

  lemma TailSkipped(f: Format, tail: seq<byte>, read: nat, selected: Option<seq<byte>>)
    requires IsTail(f, tail) && Fits(f, Cursor(tail, read))
    ensures ReadFrom(f, Cursor(tail, read), selected)
         == match selected case None => Err(NoObservation) case Some(payload) => Ok(payload)
  {
    hide ReadFrom, NextLine, SkipLine, LineOf;
    var limit := MaxLine(f) + 1;
    var at, end := Cursor(tail, read), Cursor([], read + |tail|);
    EndOfLog(f, read + |tail|, selected);
    if 0 < |tail| <= limit {
      NextLastLine(f, tail, read);
      if |tail| < limit {
        ReadPlain(f, at, tail, selected);
      } else {
        SkipTail(f, tail, [], read + |tail|);
        ReadLong(f, at, tail, end, selected);
      }
    } else if tail != [] {
      var head, more := tail[..limit], tail[limit..];
      assert tail == head + more && NoFeed(head) && NoFeed(more);
      NextChunk(f, head, more, read);
      FeedlessDoesNotEnd(head);
      SkipTail(f, head, more, read + |head|);
      assert f.prefix <= head ==> f.prefix <= tail;
      ReadLong(f, at, head, end, selected);
    }
  }

  lemma FeedlessDoesNotEnd(bytes: seq<byte>)
    requires NoFeed(bytes)
    ensures !EndsWith(bytes, LF)
  {
    if bytes != [] {
      assert bytes[|bytes| - 1] in bytes;
    }
  }

  // ---------- wrapped payloads ----------

  lemma PrintableHasNoFeed(bytes: seq<byte>)
    requires IsPrintable(bytes)
    ensures NoFeed(bytes) && !EndsWith(bytes, CR)
  {
    if bytes != [] {
      assert 32 <= bytes[|bytes| - 1];
    }
  }

  lemma LastByte(front: seq<byte>, last: byte)
    ensures var line := front + [last];
      && line[..|line| - 1] == front
      && (forall b :: EndsWith(line, b) <==> b == last)
      && (NoFeed(front) && last != LF ==> NoFeed(line))
      && (NoFeed(front) && last == LF ==> IsLine(line))
  {
  }

  lemma StripParts(line: seq<byte>, unfed: seq<byte>)
    requires unfed == if EndsWith(line, LF) then line[..|line| - 1] else line
    ensures StripLineEnding(line) == if EndsWith(unfed, CR) then unfed[..|unfed| - 1] else unfed
  {
  }

  /** Stripping undoes every line ending. */
  lemma StripUndoesEnding(text: seq<byte>, ending: Ending)
    requires IsPrintable(text)
    ensures StripLineEnding(text + EndingBytes(ending)) == text
    ensures if HasFeed(ending) then IsLine(text + EndingBytes(ending)) else NoFeed(text + EndingBytes(ending))
  {
    PrintableHasNoFeed(text);
    FeedlessDoesNotEnd(text);
    hide IsPrintable, NoFeed, IsLine, EndsWith, StripLineEnding;
    var line, returned := text + EndingBytes(ending), text + [CR];
    LastByte(text, CR);
    LastByte(text, LF);
    match ending {
      case LineFeed => StripParts(line, text);
      case CarriageReturnLineFeed =>
        LastByte(returned, LF);
        assert line == returned + [LF];
        StripParts(line, returned);
      case CarriageReturn => StripParts(line, line);
      case Nothing =>
        assert line == text;
        StripParts(line, line);
    }
  }

  /** The pieces still to come complete the text that has been read so far. */
  predicate Continues(v: Json, sofar: seq<byte>, pieces: seq<Piece>) {
    && v.Object?
    && sofar != []
    && sofar + Joined(pieces) == Print(v)
    && (pieces != [] ==> pieces[|pieces| - 1].text != [])
  }

  lemma {:induction false} JoinedNonEmpty(pieces: seq<Piece>)
    requires pieces != [] && pieces[|pieces| - 1].text != []
    ensures Joined(pieces) != []
    decreases |pieces|
  {
    if |pieces| > 1 {
      JoinedNonEmpty(pieces[1..]);
    }
  }

  lemma {:induction false} WrappedPayloadRead(
    f: Format, v: Json, sofar: seq<byte>, pieces: seq<Piece>, rest: seq<byte>, read: nat)
    requires Continues(v, sofar, pieces) && PiecesEnd(pieces, rest)
    requires |Print(v)| <= f.maxPayload
    requires Fits(f, Cursor(PieceLines(pieces) + rest, read))
    ensures ReadWrapped(f, sofar, Cursor(PieceLines(pieces) + rest, read))
         == Ok((Print(v), Cursor(rest, read + |PieceLines(pieces)|)))
    decreases |pieces|
  {
    if pieces == [] {
      hide ReadWrapped, IsComplete, Print;
      assert sofar == Print(v) && PieceLines(pieces) + rest == rest;
      assert Print(v)[..|sofar|] == sofar;
      CompleteExactlyAtTheEnd(v, |sofar|);
      WrapDone(f, Print(v), Cursor(rest, read));
    } else {
      hide ReadWrapped, IsComplete, NextLine, Print, StripLineEnding, LineOf, IsLine;
      var piece, line, more := pieces[0], PieceLine(pieces[0]), PieceLines(pieces[1..]) + rest;
      assert PieceLines(pieces) + rest == line + more;
      FirstPieceEnds(pieces, rest);
      PieceTaken(f, v, sofar, pieces, more, read);
      WrappedPayloadRead(f, v, sofar + piece.text, pieces[1..], rest, read + |line|);
    }
  }

  /** After the first piece without a line feed nothing follows. */
  lemma FirstPieceEnds(pieces: seq<Piece>, rest: seq<byte>)
    requires pieces != [] && PiecesEnd(pieces, rest)
    ensures PiecesEnd(pieces[1..], rest)
    ensures HasFeed(pieces[0].ending) || (|pieces| == 1 && PieceLines(pieces[1..]) + rest == [])
  {
  }

  /** An unfinished payload takes over the next piece. */
  lemma PieceTaken(f: Format, v: Json, sofar: seq<byte>, pieces: seq<Piece>, more: seq<byte>, read: nat)
    requires Continues(v, sofar, pieces) && pieces != []
    requires |Print(v)| <= f.maxPayload
    requires HasFeed(pieces[0].ending) || (|pieces| == 1 && more == [])
    requires Fits(f, Cursor(PieceLine(pieces[0]) + more, read))
    ensures Continues(v, sofar + pieces[0].text, pieces[1..])
    ensures ReadWrapped(f, sofar, Cursor(PieceLine(pieces[0]) + more, read))
         == ReadWrapped(f, sofar + pieces[0].text, Cursor(more, read + |PieceLine(pieces[0])|))
  {
    hide ReadWrapped, IsComplete, NextLine, Print, StripLineEnding, LineOf, IsLine, NoFeed, HasFeed, EndingBytes,
      PieceLine, IsPrintable;
    var text, piece, line := Print(v), pieces[0], PieceLine(pieces[0]);
    JoinedNonEmpty(pieces);
    FirstJoined(text, sofar, pieces);
    hide Joined;
    CompleteExactlyAtTheEnd(v, |sofar|);
    PrintPrintable(v);
    PiecePrintable(text, sofar, piece.text, Joined(pieces[1..]));
    PieceLineRead(f, pieces, more, read);
    WrapMore(f, sofar, Cursor(line + more, read), line);
  }

  lemma FirstJoined(text: seq<byte>, sofar: seq<byte>, pieces: seq<Piece>)
    requires pieces != [] && sofar + Joined(pieces) == text
    ensures text[..|sofar|] == sofar && text == sofar + (pieces[0].text + Joined(pieces[1..]))
    ensures (sofar + pieces[0].text) + Joined(pieces[1..]) == text
  {
  }

  /** The line of the first piece is read whole. */
  lemma PieceLineRead(f: Format, pieces: seq<Piece>, more: seq<byte>, read: nat)
    requires pieces != [] && pieces[|pieces| - 1].text != []
    requires IsPrintable(pieces[0].text) && |pieces[0].text| <= f.maxPayload
    requires HasFeed(pieces[0].ending) || (|pieces| == 1 && more == [])
    requires Fits(f, Cursor(PieceLine(pieces[0]) + more, read))
    ensures var line := PieceLine(pieces[0]);
      && line != [] && StripLineEnding(line) == pieces[0].text
      && NextLine(f, Cursor(line + more, read)) == Ok(line)
      && After(Cursor(line + more, read), line) == Cursor(more, read + |line|)
  {
    hide NextLine, StripLineEnding, LineOf, IsLine;
    StripUndoesEnding(pieces[0].text, pieces[0].ending);
    NextEndedLine(f, PieceLine(pieces[0]), more, read);
  }

  lemma PiecePrintable(text: seq<byte>, front: seq<byte>, piece: seq<byte>, back: seq<byte>)
    requires IsPrintable(text) && text == front + (piece + back)
    ensures IsPrintable(piece)
  {
    assert forall i :: 0 <= i < |piece| ==> piece[i] == text[|front| + i];
  }

  lemma WrapDone(f: Format, payload: seq<byte>, at: Cursor)
    requires |payload| <= f.maxPayload && IsComplete(payload)
    ensures ReadWrapped(f, payload, at) == Ok((payload, at))
  {
  }

  lemma WrapMore(f: Format, payload: seq<byte>, at: Cursor, line: seq<byte>)
    requires |payload| <= f.maxPayload && !IsComplete(payload)
    requires NextLine(f, at) == Ok(line) && line <= at.rest && line != []
    ensures ReadWrapped(f, payload, at) == ReadWrapped(f, payload + StripLineEnding(line), After(at, line))
  {
    hide IsComplete, NextLine, StripLineEnding;
  }

  /** The prefixed first line and the lines wrapped after it select exactly the payload. */
  lemma ObservationSelected(
    f: Format, v: Json, pieces: seq<Piece>, rest: seq<byte>, read: nat)
    requires GoodFormat(f) && v.Object? && |Print(v)| <= f.maxPayload
    requires pieces != [] && pieces[0].text != [] && pieces[|pieces| - 1].text != []
    requires Joined(pieces) == Print(v) && PiecesEnd(pieces, rest)
    requires Fits(f, Cursor(f.prefix + PieceLines(pieces) + rest, read))
    ensures ReadFrom(f, Cursor(f.prefix + PieceLines(pieces) + rest, read), None)
         == ReadFrom(f, Cursor(rest, read + |f.prefix| + |PieceLines(pieces)|), Some(Print(v)))
    ensures ReadFrom(f, Cursor(f.prefix + PieceLines(pieces) + rest, read), Some([])) == Err(ManyObservations)
  {
    hide ReadFrom, ReadWrapped, NextLine, StripLineEnding, Print, IsPrintable, GoodFormat;
    var first, others := pieces[0], pieces[1..];
    var line, more := f.prefix + first.text + EndingBytes(first.ending), PieceLines(others) + rest;
    FirstPieceSplits(f, pieces, rest);
    FirstPieceEnds(pieces, rest);
    hide PieceLines, Joined, PiecesEnd, EndingBytes, HasFeed, NoFeed;
    PrintPrintable(v);
    PiecePrintable(Print(v), [], first.text, Joined(others));
    FirstLine(f, first, more, read);
    WrappedPayloadRead(f, v, first.text, others, rest, read + |line|);
    ReadMarked(f, Cursor(line + more, read), line, Print(v), Cursor(rest, read + |line| + |PieceLines(others)|));
    ReadAgain(f, Cursor(line + more, read), line, []);
  }

  lemma FirstPieceSplits(f: Format, pieces: seq<Piece>, rest: seq<byte>)
    requires pieces != []
    ensures var first, others := pieces[0], pieces[1..];
      var line := f.prefix + first.text + EndingBytes(first.ending);
      && f.prefix + PieceLines(pieces) + rest == line + (PieceLines(others) + rest)
      && Joined(pieces) == [] + (first.text + Joined(others)) == first.text + Joined(others)
      && |f.prefix| + |PieceLines(pieces)| == |line| + |PieceLines(others)|
      && (others != [] ==> others[|others| - 1] == pieces[|pieces| - 1])
  {
    var first, others := pieces[0], pieces[1..];
    assert PieceLines(pieces) == (first.text + EndingBytes(first.ending)) + PieceLines(others);
    assert Joined(pieces) == first.text + Joined(others);
    hide PieceLines, Joined, EndingBytes;
    Regrouped(f.prefix, first.text, EndingBytes(first.ending), PieceLines(others), rest);
  }

  lemma Regrouped(a: seq<byte>, b: seq<byte>, c: seq<byte>, d: seq<byte>, e: seq<byte>)
    ensures a + ((b + c) + d) + e == (a + b + c) + (d + e)
  {
  }

  /** The line that carries the prefix and the first piece. */
  lemma FirstLine(f: Format, first: Piece, more: seq<byte>, read: nat)
    requires GoodFormat(f) && IsPrintable(first.text) && |first.text| <= f.maxPayload
    requires HasFeed(first.ending) || more == []
    requires Fits(f, Cursor(f.prefix + first.text + EndingBytes(first.ending) + more, read))
    ensures var line := f.prefix + first.text + EndingBytes(first.ending);
      && NextLine(f, Cursor(line + more, read)) == Ok(line)
      && After(Cursor(line + more, read), line) == Cursor(more, read + |line|)
      && line != [] && f.prefix <= line && |line| <= MaxLine(f)
      && Drop(StripLineEnding(line), |f.prefix|) == first.text
  {
    hide NextLine, StripLineEnding, IsLine, LineOf;
    var marked := f.prefix + first.text;
    PrintableConcat(f.prefix, first.text);
    StripUndoesEnding(marked, first.ending);
    NextEndedLine(f, marked + EndingBytes(first.ending), more, read);
    assert marked[|f.prefix|..] == first.text;
  }

  // ---------- whole logs ----------

  /** A log with one wrapped observation among lines that do not carry the prefix. */
  function LogOf(
    f: Format, before: seq<seq<byte>>, pieces: seq<Piece>, after: seq<seq<byte>>, tail: seq<byte>): seq<byte>
  {
    Flatten(before) + (f.prefix + PieceLines(pieces) + (Flatten(after) + tail))
  }

  /**
  Wrapping round trip: however a compact JSON object is cut into lines, with either line
  ending and with any or none where the log ends with it, among lines of any length that
  do not carry the prefix, the reader returns exactly the object's text.
  */
  lemma WrapRoundTrip(
    f: Format, v: Json, before: seq<seq<byte>>, pieces: seq<Piece>, after: seq<seq<byte>>, tail: seq<byte>)
    requires GoodFormat(f) && v.Object? && |Print(v)| <= f.maxPayload
    requires pieces != [] && pieces[0].text != [] && pieces[|pieces| - 1].text != []
    requires Joined(pieces) == Print(v) && PiecesEnd(pieces, Flatten(after) + tail)
    requires forall l :: l in before + after ==> IsNoise(f, l)
    requires IsTail(f, tail)
    requires f.maxTotal.Some? ==> |LogOf(f, before, pieces, after, tail)| <= f.maxTotal.value
    ensures ReadSinglePayload(f, LogOf(f, before, pieces, after, tail)) == Ok(Print(v))
  {
    hide ReadFrom, IsNoise, GoodFormat, IsTail, Flatten, PieceLines, Print, Joined;
    forall l | l in before ensures l in before + after {}
    forall l | l in after ensures l in before + after {}
    var rest := Flatten(after) + tail;
    ObservationReached(f, v, before, pieces, rest);
    var read := |Flatten(before)| + |f.prefix| + |PieceLines(pieces)|;
    NoiseLinesSkipped(f, after, tail, read, Some(Print(v)));
    TailSkipped(f, tail, read + |Flatten(after)|, Some(Print(v)));
  }

  /** The reader passes over the lines before an observation and goes on behind it, holding its payload. */
  lemma ObservationReached(f: Format, v: Json, before: seq<seq<byte>>, pieces: seq<Piece>, rest: seq<byte>)
    requires GoodFormat(f) && v.Object? && |Print(v)| <= f.maxPayload
    requires pieces != [] && pieces[0].text != [] && pieces[|pieces| - 1].text != []
    requires Joined(pieces) == Print(v) && PiecesEnd(pieces, rest)
    requires forall l :: l in before ==> IsNoise(f, l)
    requires Fits(f, Cursor(Flatten(before) + (f.prefix + PieceLines(pieces) + rest), 0))
    ensures ReadSinglePayload(f, Flatten(before) + (f.prefix + PieceLines(pieces) + rest))
         == ReadFrom(f, Cursor(rest, |Flatten(before)| + |f.prefix| + |PieceLines(pieces)|), Some(Print(v)))
  {
    hide ReadFrom, IsNoise, GoodFormat, Flatten, PieceLines, Print, Joined;
    NoiseLinesSkipped(f, before, f.prefix + PieceLines(pieces) + rest, 0, None);
    ObservationSelected(f, v, pieces, rest, |Flatten(before)|);
  }

  /** A log whose lines never carry the prefix has no observation. */
  lemma NoObservationReported(f: Format, lines: seq<seq<byte>>, tail: seq<byte>)
    requires forall l :: l in lines ==> IsNoise(f, l)
    requires IsTail(f, tail)
    requires f.maxTotal.Some? ==> |Flatten(lines) + tail| <= f.maxTotal.value
    ensures ReadSinglePayload(f, Flatten(lines) + tail) == Err(NoObservation)
  {
    NoiseLinesSkipped(f, lines, tail, 0, None);
    TailSkipped(f, tail, |Flatten(lines)|, None);
  }

  /** A second prefixed line after a complete observation is refused. */
  lemma SecondObservationRefused(
    f: Format, v: Json, before: seq<seq<byte>>, pieces: seq<Piece>, between: seq<seq<byte>>,
    second: seq<byte>, rest: seq<byte>)
    requires GoodFormat(f) && v.Object? && |Print(v)| <= f.maxPayload
    requires pieces != [] && pieces[0].text != [] && pieces[|pieces| - 1].text != []
    requires Joined(pieces) == Print(v) && PiecesEnd(pieces, Flatten(between) + (second + rest))
    requires forall l :: l in before + between ==> IsNoise(f, l)
    requires IsEnded(second, rest) && f.prefix <= second
    requires f.maxTotal.Some? ==>
      |Flatten(before) + (f.prefix + PieceLines(pieces) + (Flatten(between) + (second + rest)))| <= f.maxTotal.value
    ensures ReadSinglePayload(
      f, Flatten(before) + (f.prefix + PieceLines(pieces) + (Flatten(between) + (second + rest))))
      == Err(if |second| <= |f.prefix| + f.maxPayload + 2 then ManyObservations else PayloadTooLarge)
  {
    hide ReadFrom, IsNoise, IsPrintable, NextLine, LineOf, Print, IsLine, Flatten, PieceLines, Joined;
    forall l | l in before ensures l in before + between {}
    forall l | l in between ensures l in before + between {}
    ObservationReached(f, v, before, pieces, Flatten(between) + (second + rest));
    var read := |Flatten(before)| + |f.prefix| + |PieceLines(pieces)|;
    NoiseLinesSkipped(f, between, second + rest, read, Some(Print(v)));
    PrefixedLineRefused(f, second, rest, read + |Flatten(between)|, Print(v));
  }

  lemma PrefixedLineRefused(f: Format, second: seq<byte>, rest: seq<byte>, read: nat, earlier: seq<byte>)
    requires IsEnded(second, rest) && f.prefix <= second && f.prefix != []
    requires Fits(f, Cursor(second + rest, read))
    ensures ReadFrom(f, Cursor(second + rest, read), Some(earlier))
         == Err(if |second| <= MaxLine(f) then ManyObservations else PayloadTooLarge)
  {
    hide ReadFrom, LineOf, NextLine, SkipLine, IsLine;
    var limit := MaxLine(f) + 1;
    var at, end := Cursor(second + rest, read), Cursor(rest, read + |second|);
    if |second| < limit {
      NextEndedLine(f, second, rest, read);
      ReadAgain(f, at, second, earlier);
    } else if |second| == limit {
      NextEndedLine(f, second, rest, read);
      assert second + [] == second && [] + rest == rest;
      SkipEndedLine(f, second, [], rest, read + |second|);
      ReadTooLong(f, at, second, end, Some(earlier));
    } else {
      var head, tail := second[..limit], second[limit..];
      LongEndedSplits(second, rest, limit);
      assert second + rest == head + (tail + rest);
      NextChunk(f, head, tail + rest, read);
      SkipEndedLine(f, head, tail, rest, read + |head|);
      assert f.prefix <= head;
      ReadTooLong(f, at, head, end, Some(earlier));
    }
  }

  lemma LongEndedSplits(line: seq<byte>, rest: seq<byte>, limit: nat)
    requires IsEnded(line, rest) && 0 < limit < |line|
    ensures NoFeed(line[..limit]) && IsEnded(line[limit..], rest) && line == line[..limit] + line[limit..]
  {
    if IsLine(line) {
      LongLineSplits(line, limit);
    }
  }

  /** A line read whole, or in chunks, is skipped to its end or to that of the log. */
  lemma SkipEndedLine(f: Format, chunk: seq<byte>, more: seq<byte>, rest: seq<byte>, read: nat)
    requires chunk != [] && IsEnded(chunk + more, rest) && Fits(f, Cursor(more + rest, read))
    ensures SkipLine(f, chunk, Cursor(more + rest, read)) == Ok(Cursor(rest, read + |more|))
  {
    hide SkipLine, NextLine, LineOf;
    if more == [] && IsLine(chunk + more) {
      assert chunk + more == chunk && more + rest == rest;
      LineEnds(chunk);
      SkipNothing(f, chunk, Cursor(rest, read));
    } else if IsLine(chunk + more) {
      LongLineSplits(chunk + more, |chunk|);
      assert (chunk + more)[..|chunk|] == chunk && (chunk + more)[|chunk|..] == more;
      SkipToLineEnd(f, chunk, more, rest, read);
    } else {
      assert NoFeed(chunk) && NoFeed(more) && more + rest == more;
      FeedlessDoesNotEnd(chunk);
      SkipTail(f, chunk, more, read);
    }
  }

  // ---------- limits ----------

  lemma {:induction false} SkipWithin(f: Format, line: seq<byte>, at: Cursor)
    requires Fits(f, Cursor([], at.read))
    ensures var r := SkipLine(f, line, at);
      && (r.Ok? ==> Fits(f, Cursor([], r.value.read)) && r.value.read + |r.value.rest| == at.read + |at.rest|)
      && (r.Err? ==> r.error == LogTooLarge && !Fits(f, at))
    decreases |at.rest|, if line == [] then 0 else 1
  {
    if line != [] && !EndsWith(line, LF) && NextLine(f, at).Ok? {
      var next := NextLine(f, at).value;
      NextLineIsPrefix(f, at);
      SkipWithin(f, next, After(at, next));
    }
  }

  lemma {:induction false} WrappedWithin(f: Format, payload: seq<byte>, at: Cursor)
    requires Fits(f, Cursor([], at.read))
    ensures var r := ReadWrapped(f, payload, at);
      && (r.Ok? ==>
            && Fits(f, Cursor([], r.value.1.read)) && |r.value.0| <= f.maxPayload
            && r.value.1.read + |r.value.1.rest| == at.read + |at.rest|)
      && (r.Err? ==> r.error == PayloadTooLarge || (r.error == LogTooLarge && !Fits(f, at)))
    decreases |at.rest|
  {
    hide IsComplete, StripLineEnding;
    if |payload| <= f.maxPayload && !IsComplete(payload) && NextLine(f, at).Ok? && NextLine(f, at).value != [] {
      var line := NextLine(f, at).value;
      NextLineIsPrefix(f, at);
      WrappedWithin(f, payload + StripLineEnding(line), After(at, line));
    }
  }

  /** What is read stays within the limits, and the total limit is reported only when it is exceeded. */
  lemma {:induction false} ReadWithin(f: Format, at: Cursor, selected: Option<seq<byte>>)
    requires Fits(f, Cursor([], at.read)) && (selected.Some? ==> |selected.value| <= f.maxPayload)
    ensures var r := ReadFrom(f, at, selected);
      && (r.Ok? ==> Fits(f, at) && |r.value| <= f.maxPayload)
      && (r == Err(LogTooLarge) ==> !Fits(f, at))
    decreases |at.rest|
  {
    hide StripLineEnding, SkipLine, ReadWrapped, LineOf;
    if NextLine(f, at).Ok? && NextLine(f, at).value != [] {
      var line := NextLine(f, at).value;
      NextLineIsPrefix(f, at);
      var next := After(at, line);
      assert next.read + |next.rest| == at.read + |at.rest|;
      if |line| > MaxLine(f) {
        SkipLineAdvances(f, line, next);
        SkipWithin(f, line, next);
        if SkipLine(f, line, next).Ok? && !(f.prefix <= line) {
          ReadWithin(f, SkipLine(f, line, next).value, selected);
        }
      } else if !(f.prefix <= line) {
        ReadWithin(f, next, selected);
      } else if selected.None? && Drop(StripLineEnding(line), |f.prefix|) != [] {
        var initial := Drop(StripLineEnding(line), |f.prefix|);
        ReadWrappedAdvances(f, initial, next);
        WrappedWithin(f, initial, next);
        if ReadWrapped(f, initial, next).Ok? {
          ReadWithin(f, ReadWrapped(f, initial, next).value.1, Some(ReadWrapped(f, initial, next).value.0));
        }
      }
    } else if NextLine(f, at).Ok? {
      EmptyLineMeansEnd(f, at);
    }
  }

  lemma EmptyLineMeansEnd(f: Format, at: Cursor)
    requires NextLine(f, at) == Ok([])
    ensures at.rest == []
  {
  }

  /** No log or payload over its limit is ever accepted, and no log is called too large that is not. */
  lemma LimitsHold(f: Format, log: seq<byte>)
    ensures ReadSinglePayload(f, log).Ok? ==>
      && (f.maxTotal.Some? ==> |log| <= f.maxTotal.value)
      && |ReadSinglePayload(f, log).value| <= f.maxPayload
    ensures ReadSinglePayload(f, log) == Err(LogTooLarge) ==> f.maxTotal.Some? && |log| > f.maxTotal.value
  {
    hide ReadFrom;
    ReadWithin(f, Cursor(log, 0), None);
  }

  // ---------- the fixed formats, spelled out ----------

  predicate Spells(bytes: seq<byte>, text: string) {
    |bytes| == |text| && forall i :: 0 <= i < |text| ==> bytes[i] as int == text[i] as int
  }

  lemma SpellsBoth(a: seq<byte>, s: string, b: seq<byte>, t: string)
    requires Spells(a, s) && Spells(b, t)
    ensures Spells(a + b, s + t)
  {
  }

  /** The two prefixes and their limits. */
  lemma PrefixesSpelled()
    ensures Spells(PARITY_FORMAT.prefix, "TRADING_" + "BOT_LAB_" + "LEAN_" + "PARITY_V1:")
    ensures Spells(WALK_FORWARD_FORMAT.prefix, "TRADING_" + "BOT_LAB_" + "LEAN_" + ("WALK_" + "FORWARD_V1:"))
    ensures PARITY_FORMAT.maxPayload == 64 * 1024 && PARITY_FORMAT.maxTotal == None
    ensures WALK_FORWARD_FORMAT.maxPayload == 16 * 1024 && WALK_FORWARD_FORMAT.maxTotal == Some(8 * 1024 * 1024)
  {
    SpellsBoth(TRADING, "TRADING_", BOT_LAB, "BOT_LAB_");
    SpellsBoth(TRADING + BOT_LAB, "TRADING_" + "BOT_LAB_", LEAN, "LEAN_");
    SpellsBoth(TRADING + BOT_LAB + LEAN, "TRADING_" + "BOT_LAB_" + "LEAN_", PARITY, "PARITY_V1:");
    SpellsBoth(WALK, "WALK_", FORWARD, "FORWARD_V1:");
    SpellsBoth(TRADING + BOT_LAB + LEAN, "TRADING_" + "BOT_LAB_" + "LEAN_", WALK + FORWARD, "WALK_" + "FORWARD_V1:");
    hide Spells;
    assert TRADING + BOT_LAB + LEAN + (WALK + FORWARD) == TRADING + BOT_LAB + LEAN + WALK + FORWARD;
  }

  /** The prefix alone on its line is an empty payload, whatever follows. */
  lemma EmptyPayloadRefused(f: Format, before: seq<seq<byte>>, ending: Ending, rest: seq<byte>)
    requires GoodFormat(f) && (HasFeed(ending) || rest == [])
    requires forall l :: l in before ==> IsNoise(f, l)
    requires Fits(f, Cursor(Flatten(before) + (f.prefix + EndingBytes(ending) + rest), 0))
    ensures ReadSinglePayload(f, Flatten(before) + (f.prefix + EndingBytes(ending) + rest)) == Err(EmptyPayload)
  {
    hide ReadFrom, NextLine, StripLineEnding, IsNoise, Flatten, IsLine, LineOf;
    var line := f.prefix + EndingBytes(ending);
    NoiseLinesSkipped(f, before, line + rest, 0, None);
    StripUndoesEnding(f.prefix, ending);
    NextEndedLine(f, line, rest, |Flatten(before)|);
    ReadEmpty(f, Cursor(line + rest, |Flatten(before)|), line);
  }

  lemma ReadEmpty(f: Format, at: Cursor, line: seq<byte>)
    requires NextLine(f, at) == Ok(line) && line <= at.rest
    requires line != [] && |line| <= MaxLine(f) && f.prefix <= line && StripLineEnding(line) == f.prefix
    ensures ReadFrom(f, at, None) == Err(EmptyPayload)
  {
    hide NextLine, ReadWrapped, SkipLine, StripLineEnding;
  }
}
