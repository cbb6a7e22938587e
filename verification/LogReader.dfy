/**
Extraction of the one prefixed JSON observation from a log whose writer may have
wrapped the payload over several lines. One reader serves both formats: the parity
log without, and the walk-forward log with a limit on the bytes read in all.
*/
module LogReader {
  import opened JsonText
  import opened Options

  const LF: byte := 10
  const CR: byte := 13

  datatype Format = Format(prefix: seq<byte>, maxPayload: nat, maxTotal: Option<nat>)

  /** "TRADING_", "BOT_LAB_", "LEAN_" */
  const TRADING: seq<byte> := [84, 82, 65, 68, 73, 78, 71, 95]
  const BOT_LAB: seq<byte> := [66, 79, 84, 95, 76, 65, 66, 95]
  const LEAN: seq<byte> := [76, 69, 65, 78, 95]

  /** "PARITY_V1:" */
  const PARITY: seq<byte> := [80, 65, 82, 73, 84, 89, 95, 86, 49, 58]

  /** "WALK_FORWARD_V1:" */
  const WALK: seq<byte> := [87, 65, 76, 75, 95]
  const FORWARD: seq<byte> := [70, 79, 82, 87, 65, 82, 68, 95, 86, 49, 58]

  const PARITY_PREFIX: seq<byte> := TRADING + BOT_LAB + LEAN + PARITY
  const WALK_FORWARD_PREFIX: seq<byte> := TRADING + BOT_LAB + LEAN + WALK + FORWARD

  const PARITY_FORMAT := Format(PARITY_PREFIX, 65536, None)
  const WALK_FORWARD_FORMAT := Format(WALK_FORWARD_PREFIX, 16384, Some(8 * 1024 * 1024))

  datatype ReadError = PayloadTooLarge | ManyObservations | NoObservation | EmptyPayload | LogTooLarge

  datatype Result<+T> = Ok(value: T) | Err(error: ReadError)

  /** The longest line that can carry a payload: prefix, payload and line ending. */
  function MaxLine(f: Format): nat { |f.prefix| + f.maxPayload + 2 }

  // ---------- lines ----------

  /** The bytes one bounded readline returns: through the first line feed, at most `limit` of them. */
  function LineOf(rest: seq<byte>, limit: nat): (line: seq<byte>)
    ensures line <= rest && |line| <= limit
    ensures rest != [] && limit > 0 ==> line != []
    decreases limit
  {
    if rest == [] || limit == 0 then []
    else if rest[0] == LF then [LF]
    else
      var more := LineOf(rest[1..], limit - 1);
      assert rest == [rest[0]] + rest[1..];
      [rest[0]] + more
  }

  predicate EndsWith(line: seq<byte>, b: byte) { line != [] && line[|line| - 1] == b }

  function StripLineEnding(line: seq<byte>): seq<byte> {
    var unfed := if EndsWith(line, LF) then line[..|line| - 1] else line;
    if EndsWith(unfed, CR) then unfed[..|unfed| - 1] else unfed
  }

  function Drop(bytes: seq<byte>, n: nat): seq<byte> {
    if n <= |bytes| then bytes[n..] else []
  }

  /** What is left of a log, and how many of its bytes have been read. */
  datatype Cursor = Cursor(rest: seq<byte>, read: nat)

  /** A bounded readline that also keeps the total within the format's limit. */
  function NextLine(f: Format, at: Cursor): Result<seq<byte>> {
    var line := LineOf(at.rest, MaxLine(f) + 1);
    if f.maxTotal.Some? && at.read + |line| > f.maxTotal.value then Err(LogTooLarge) else Ok(line)
  }

  function After(at: Cursor, line: seq<byte>): Cursor
    requires line <= at.rest
  {
    Cursor(at.rest[|line|..], at.read + |line|)
  }

  lemma NextLineIsPrefix(f: Format, at: Cursor)
    ensures NextLine(f, at).Ok? ==>
      NextLine(f, at).value <= at.rest && (at.rest != [] ==> NextLine(f, at).value != [])
  {
  }

  // ---------- the reader ----------

  /** Reads the remaining chunks of an overlong line. */
  function SkipLine(f: Format, line: seq<byte>, at: Cursor): Result<Cursor>
    decreases |at.rest|, if line == [] then 0 else 1
  {
    if line == [] || EndsWith(line, LF) then Ok(at)
    else
      match NextLine(f, at)
      case Err(e) => Err(e)
      case Ok(next) =>
        NextLineIsPrefix(f, at);
        SkipLine(f, next, After(at, next))
  }

  /** Appends stripped lines until the payload holds a whole object or the log ends. */
  function ReadWrapped(f: Format, payload: seq<byte>, at: Cursor): Result<(seq<byte>, Cursor)>
    decreases |at.rest|
  {
    if |payload| > f.maxPayload then Err(PayloadTooLarge)
    else if IsComplete(payload) then Ok((payload, at))
    else
      match NextLine(f, at)
      case Err(e) => Err(e)
      case Ok(line) =>
        if line == [] then Ok((payload, at))
        else
          NextLineIsPrefix(f, at);
          ReadWrapped(f, payload + StripLineEnding(line), After(at, line))
  }

  lemma {:induction false} SkipLineAdvances(f: Format, line: seq<byte>, at: Cursor)
    ensures SkipLine(f, line, at).Ok? ==> |SkipLine(f, line, at).value.rest| <= |at.rest|
    decreases |at.rest|, if line == [] then 0 else 1
  {
    if !(line == [] || EndsWith(line, LF)) && NextLine(f, at).Ok? {
      NextLineIsPrefix(f, at);
      SkipLineAdvances(f, NextLine(f, at).value, After(at, NextLine(f, at).value));
    }
  }

  lemma {:induction false} ReadWrappedAdvances(f: Format, payload: seq<byte>, at: Cursor)
    ensures ReadWrapped(f, payload, at).Ok? ==> |ReadWrapped(f, payload, at).value.1.rest| <= |at.rest|
    decreases |at.rest|
  {
    if |payload| <= f.maxPayload && !IsComplete(payload) && NextLine(f, at).Ok? && NextLine(f, at).value != [] {
      NextLineIsPrefix(f, at);
      var line := NextLine(f, at).value;
      ReadWrappedAdvances(f, payload + StripLineEnding(line), After(at, line));
    }
  }

  /** The payload of the one prefixed observation in the rest of the log. */
  function ReadFrom(f: Format, at: Cursor, selected: Option<seq<byte>>): Result<seq<byte>>
    decreases |at.rest|
  {
    match NextLine(f, at)
    case Err(e) => Err(e)
    case Ok(line) =>
      NextLineIsPrefix(f, at);
      if line == [] then (match selected case None => Err(NoObservation) case Some(payload) => Ok(payload))
      else if |line| > MaxLine(f) then
        SkipLineAdvances(f, line, After(at, line));
        match SkipLine(f, line, After(at, line))
        case Err(e) => Err(e)
        case Ok(next) => if f.prefix <= line then Err(PayloadTooLarge) else ReadFrom(f, next, selected)
      else if !(f.prefix <= line) then ReadFrom(f, After(at, line), selected)
      else if selected.Some? then Err(ManyObservations)
      else
        var initial := Drop(StripLineEnding(line), |f.prefix|);
        if initial == [] then Err(EmptyPayload)
        else
          ReadWrappedAdvances(f, initial, After(at, line));
          match ReadWrapped(f, initial, After(at, line))
          case Err(e) => Err(e)
          case Ok((payload, next)) => ReadFrom(f, next, Some(payload))
  }

  function ReadSinglePayload(f: Format, log: seq<byte>): Result<seq<byte>> {
    ReadFrom(f, Cursor(log, 0), None)
  }

  // ---------- the reader's loops ----------

  /** An open log with a read position. */
  class Handle {
    const data: seq<byte>
    var position: nat

    constructor (data: seq<byte>)
      ensures this.data == data && position == 0
    {
      this.data := data;
      position := 0;
    }

    predicate Valid()
      reads this
    {
      position <= |data|
    }

    function Rest(): seq<byte>
      reads this
      requires Valid()
    {
      data[position..]
    }

    method ReadLine(limit: nat) returns (line: seq<byte>)
      requires Valid()
      modifies this
      ensures Valid()
      ensures line == LineOf(old(Rest()), limit)
      ensures Rest() == old(Rest())[|line|..]
    {
      line := ReadFromData(data, position, limit);
      assert Rest()[|line|..] == data[position + |line|..];
      position := position + |line|;
    }
  }

  /** Collects bytes from a position on, through the first line feed, at most `limit` of them. */
  method ReadFromData(data: seq<byte>, position: nat, limit: nat) returns (line: seq<byte>)
    requires position <= |data|
    ensures line == LineOf(data[position..], limit)
    ensures position + |line| <= |data|
  {
    hide LineOf;
    var next := position;
    LineStarts(data, position, limit);
    hide LineIsAhead;
    while next - position < limit && next < |data|
      invariant position <= next <= |data| && next - position <= limit
      invariant LineIsAhead(data, position, next, limit)
      decreases |data| - next
    {
      LineGrows(data, position, next, limit);
      next := next + 1;
      if data[next - 1] == LF {
        return data[position..next];
      }
    }
    LineComplete(data, position, next, limit);
    line := data[position..next];
  }

  lemma LineComplete(data: seq<byte>, position: nat, next: nat, limit: nat)
    requires position <= next <= |data| && next - position <= limit
    requires LineIsAhead(data, position, next, limit)
    requires next - position == limit || next == |data|
    ensures LineOf(data[position..], limit) == data[position..next]
  {
    hide LineOf;
    LineOfNothing(data[next..], limit - (next - position));
  }

  /** No line feed so far: the line is what has been passed and what is still ahead. */
  ghost predicate LineIsAhead(data: seq<byte>, position: nat, next: nat, limit: nat)
    requires position <= next <= |data| && next - position <= limit
  {
    LineOf(data[position..], limit) == data[position..next] + LineOf(data[next..], limit - (next - position))
  }

  lemma LineStarts(data: seq<byte>, position: nat, limit: nat)
    requires position <= |data|
    ensures LineIsAhead(data, position, position, limit)
  {
  }

  lemma LineGrows(data: seq<byte>, position: nat, next: nat, limit: nat)
    requires position <= next < |data| && next - position < limit
    requires LineIsAhead(data, position, next, limit)
    ensures if data[next] == LF then LineOf(data[position..], limit) == data[position..next + 1]
            else LineIsAhead(data, position, next + 1, limit)
  {
    hide LineOf;
    LineOfStep(data, next, limit - (next - position));
    assert data[position..next + 1] == data[position..next] + [data[next]];
  }

  lemma LineOfStep(data: seq<byte>, position: nat, limit: nat)
    requires position < |data| && limit > 0
    ensures LineOf(data[position..], limit)
      == [data[position]] + (if data[position] == LF then [] else LineOf(data[position + 1..], limit - 1))
  {
    assert data[position..][0] == data[position] && data[position..][1..] == data[position + 1..];
  }

  lemma LineOfNothing(rest: seq<byte>, limit: nat)
    requires rest == [] || limit == 0
    ensures LineOf(rest, limit) == []
  {
  }

  method ReadBounded(f: Format, handle: Handle, read: nat) returns (line: Result<seq<byte>>)
    requires handle.Valid()
    modifies handle
    ensures handle.Valid()
    ensures line == NextLine(f, Cursor(old(handle.Rest()), read))
    ensures line.Ok? ==> line.value <= old(handle.Rest()) && handle.Rest() == old(handle.Rest())[|line.value|..]
  {
    var raw := handle.ReadLine(MaxLine(f) + 1);
    if f.maxTotal.Some? && read + |raw| > f.maxTotal.value {
      line := Err(LogTooLarge);
    } else {
      line := Ok(raw);
    }
  }

  lemma SkipLineStep(f: Format, line: seq<byte>, at: Cursor)
    requires line != [] && !EndsWith(line, LF) && NextLine(f, at).Ok?
    ensures var next := NextLine(f, at).value;
      && next <= at.rest && (next == [] ==> at.rest == [])
      && SkipLine(f, line, at) == SkipLine(f, next, After(at, next))
  {
    NextLineIsPrefix(f, at);
    hide NextLine;
  }

  method SkipRest(f: Format, first: seq<byte>, handle: Handle, read: nat) returns (result: Result<nat>)
    requires handle.Valid()
    modifies handle
    ensures handle.Valid()
    ensures match SkipLine(f, first, Cursor(old(handle.Rest()), read))
            case Err(e) => result == Err(e)
            case Ok(at) => result == Ok(at.read) && handle.Rest() == at.rest
  {
    hide NextLine;
    var line, total: nat := first, read;
    ghost var expected := SkipLine(f, first, Cursor(handle.Rest(), read));
    while line != [] && !EndsWith(line, LF)
      invariant handle.Valid()
      invariant SkipLine(f, line, Cursor(handle.Rest(), total)) == expected
      decreases |handle.Rest()|, if line == [] then 0 else 1
    {
      ghost var before := handle.Rest();
      var next := ReadBounded(f, handle, total);
      if next.Err? {
        return Err(next.error);
      }
      SkipLineStep(f, line, Cursor(before, total));
      line := next.value;
      total := total + |line|;
    }
    result := Ok(total);
  }

  method ReadWrappedPayload(f: Format, initial: seq<byte>, handle: Handle, read: nat)
    returns (result: Result<(seq<byte>, nat)>)
    requires handle.Valid()
    modifies handle
    ensures handle.Valid()
    ensures match ReadWrapped(f, initial, Cursor(old(handle.Rest()), read))
            case Err(e) => result == Err(e)
            case Ok((payload, at)) => result == Ok((payload, at.read)) && handle.Rest() == at.rest
  {
    hide IsComplete, StripLineEnding, NextLine;
    var payload, total: nat := initial, read;
    if |payload| > f.maxPayload {
      return Err(PayloadTooLarge);
    }
    ghost var expected := ReadWrapped(f, initial, Cursor(handle.Rest(), read));
    var complete := JsonObjectIsComplete(payload);
    while !complete
      invariant handle.Valid()
      invariant |payload| <= f.maxPayload && complete == IsComplete(payload)
      invariant ReadWrapped(f, payload, Cursor(handle.Rest(), total)) == expected
      decreases |handle.Rest()|, if complete then 0 else 1
    {
      ghost var before := handle.Rest();
      var line := ReadBounded(f, handle, total);
      if line.Err? {
        return Err(line.error);
      }
      if line.value == [] {
        assert handle.Rest() == before;
        return Ok((payload, total));
      }
      total := total + |line.value|;
      payload := payload + StripLineEnding(line.value);
      if |payload| > f.maxPayload {
        return Err(PayloadTooLarge);
      }
      complete := JsonObjectIsComplete(payload);
    }
    result := Ok((payload, total));
  }

  /** Reads the whole log for its one observation. */
  method ReadPayload(f: Format, log: seq<byte>) returns (result: Result<seq<byte>>)
    ensures result == ReadSinglePayload(f, log)
  {
    var handle := new Handle(log);
    var selected: Option<seq<byte>> := None;
    var read: nat := 0;
    assert handle.Rest() == log;
    while true
      invariant handle.Valid() && fresh(handle)
      invariant ReadFrom(f, Cursor(handle.Rest(), read), selected) == ReadSinglePayload(f, log)
      decreases |handle.Rest()|
    {
      ghost var at := Cursor(handle.Rest(), read);
      var line := ReadBounded(f, handle, read);
      if line.Err? {
        return Err(line.error);
      }
      var raw := line.value;
      if raw == [] {
        return if selected.None? then Err(NoObservation) else Ok(selected.value);
      }
      NextLineIsPrefix(f, at);
      read := read + |raw|;
      ghost var after := Cursor(handle.Rest(), read);
      assert after == After(at, raw);
      if |raw| > MaxLine(f) {
        SkipLineAdvances(f, raw, after);
        var skipped := SkipRest(f, raw, handle, read);
        if skipped.Err? {
          return Err(skipped.error);
        }
        read := skipped.value;
        if f.prefix <= raw {
          return Err(PayloadTooLarge);
        }
      } else if f.prefix <= raw {
        if selected.Some? {
          return Err(ManyObservations);
        }
        var initial := Drop(StripLineEnding(raw), |f.prefix|);
        if initial == [] {
          return Err(EmptyPayload);
        }
        ReadWrappedAdvances(f, initial, after);
        var wrapped := ReadWrappedPayload(f, initial, handle, read);
        if wrapped.Err? {
          return Err(wrapped.error);
        }
        selected, read := Some(wrapped.value.0), wrapped.value.1;
      }
    }
  }
}
