/** Bounded JSONL records from a buffered reader (src/security.rs, lines 516-598). The reader delivers chunks
    of any sizes and may fail between any two of them. */
module JsonlReader {
  import opened Basics

  type Byte = bv8

  const NEWLINE: Byte := 10
  const RETURN: Byte := 13
  const MAX_LINE: nat := 4 * 1024 * 1024

  datatype Error = Io | LimitExceeded | Unterminated | Parse

  datatype Outcome = Nothing | Record(text: seq<Byte>, terminated: bool) | Failure(error: Error)

  // ---- the stream without its chunks ----

  datatype Item = Data(byte: Byte) | Fault

  datatype Source = Chunk(bytes: seq<Byte>) | Broken

  function Items(bytes: seq<Byte>): seq<Item> { seq(|bytes|, i requires 0 <= i < |bytes| => Data(bytes[i])) }

  function Flat(sources: seq<Source>): seq<Item> {
    if |sources| == 0 then []
    else (match sources[0] case Chunk(bytes) => Items(bytes) case Broken => [Fault]) + Flat(sources[1..])
  }

  predicate Stops(item: Item) { item == Data(NEWLINE) || item == Fault }

  // Where the next record ends: at a newline, a fault, or the end of the stream.
  function EndOf(items: seq<Item>): (k: nat)
    ensures k <= |items|
    ensures k < |items| ==> Stops(items[k])
    ensures forall i :: 0 <= i < k ==> !Stops(items[i])
  {
    if |items| == 0 || Stops(items[0]) then 0 else 1 + EndOf(items[1..])
  }

  function BytesOf(items: seq<Item>): seq<Byte> {
    seq(|items|, i requires 0 <= i < |items| => if items[i].Data? then items[i].byte else NEWLINE)
  }

  // The bytes of the first line.
  function LineOf(items: seq<Item>): seq<Byte> { BytesOf(items[..EndOf(items)]) }

  // ---- what one record is ----

  function Stripped(line: seq<Byte>): seq<Byte> {
    if |line| > 0 && line[|line| - 1] == RETURN then line[..|line| - 1] else line
  }

  /** How a line of the stream is classified, `valid` being UTF-8 validity. */
  function Judged(line: seq<Byte>, terminated: bool, valid: seq<Byte> -> bool): Outcome {
    if |line| > MAX_LINE then Failure(if terminated then LimitExceeded else Unterminated)
    else if valid(Stripped(line)) then Record(Stripped(line), terminated)
    else Failure(if terminated then Parse else Unterminated)
  }

  function First(items: seq<Item>, valid: seq<Byte> -> bool): (Outcome, seq<Item>) {
    var k := EndOf(items);
    if k == |items| then (if k == 0 then Nothing else Judged(BytesOf(items), false, valid), [])
    else if items[k] == Fault then (Failure(Io), items[k + 1..])
    else (Judged(BytesOf(items[..k]), true, valid), items[k + 1..])
  }

  function All(items: seq<Item>, valid: seq<Byte> -> bool): seq<Outcome>
    decreases |items|
  {
    if |items| == 0 then [] else [First(items, valid).0] + All(First(items, valid).1, valid)
  }

  // ---- the buffered reader ----

  class Reader {
    var sources: seq<Source>

    // A chunk holds something: an empty buffer means the end.
    predicate Valid()
      reads this
    {
      forall i :: 0 <= i < |sources| && sources[i].Chunk? ==> |sources[i].bytes| > 0
    }

    function Stream(): seq<Item>
      reads this
    {
      Flat(sources)
    }

    constructor (from: seq<Source>)
      requires forall i :: 0 <= i < |from| && from[i].Chunk? ==> |from[i].bytes| > 0
      ensures Valid() && sources == from
    {
      sources := from;
    }

    method FillBuffer() returns (buffer: Option<seq<Byte>>)
      requires Valid()
      modifies this
      ensures Valid()
      ensures buffer.None? ==> |old(Stream())| > 0 && old(Stream())[0] == Fault && Stream() == old(Stream())[1..]
      ensures buffer.Some? ==> sources == old(sources) && (buffer.value == [] <==> Stream() == [])
      ensures buffer.Some? && buffer.value != [] ==> |sources| > 0 && sources[0] == Chunk(buffer.value)
    {
      if |sources| == 0 {
        return Some([]);
      }
      match sources[0] {
        case Broken =>
          sources := sources[1..];
          return None;
        case Chunk(bytes) => return Some(bytes);
      }
    }

    method Consume(n: nat)
      requires Valid() && |sources| > 0 && sources[0].Chunk? && 0 < n <= |sources[0].bytes|
      modifies this
      ensures Valid()
      ensures old(Stream()) == Items(old(sources[0].bytes)[..n]) + Stream()
    {
      var bytes := sources[0].bytes;
      assert Items(bytes) == Items(bytes[..n]) + Items(bytes[n..]);
      ghost var rest := Flat(sources[1..]);
      if n == |bytes| {
        sources := sources[1..];
        assert Items(bytes) + rest == Items(bytes[..n]) + rest;
      } else {
        ghost var was := sources[1..];
        sources := [Chunk(bytes[n..])] + sources[1..];
        assert sources[1..] == was;
        assert Items(bytes) + rest == Items(bytes[..n]) + (Items(bytes[n..]) + rest);
      }
    }
  }

  method Position(buffer: seq<Byte>) returns (position: Option<nat>)
    ensures position.Some? ==>
        position.value < |buffer| && buffer[position.value] == NEWLINE && NEWLINE !in buffer[..position.value]
    ensures position.None? ==> NEWLINE !in buffer
  {
    for i := 0 to |buffer|
      invariant NEWLINE !in buffer[..i]
    {
      if buffer[i] == NEWLINE {
        return Some(i);
      }
    }
    return None;
  }

  lemma {:induction false} EndUnique(items: seq<Item>, k: nat)
    requires k <= |items| && (k < |items| ==> Stops(items[k]))
    requires forall i :: 0 <= i < k ==> !Stops(items[i])
    ensures EndOf(items) == k
  {
  }

  lemma {:induction false} ItemsAdd(a: seq<Byte>, b: seq<Byte>)
    ensures Items(a + b) == Items(a) + Items(b)
  {
  }

  lemma {:induction false} PrefixOf(items: seq<Item>, line: seq<Byte>, rest: seq<Item>)
    requires items == Items(line) + rest && NEWLINE !in line && (rest == [] || Stops(rest[0]))
    ensures EndOf(items) == |line| && BytesOf(items[..|line|]) == line && items[|line|..] == rest
  {
    forall i | 0 <= i < |line| ensures !Stops(items[i]) {
      assert items[i] == Data(line[i]);
      assert line[i] in line;
    }
    assert |line| < |items| ==> items[|line|] == rest[0];
    EndUnique(items, |line|);
    assert items[..|line|] == Items(line);
    assert BytesOf(Items(line)) == line;
  }

  lemma {:induction false} FirstAtNewline(line: seq<Byte>, rest: seq<Item>, valid: seq<Byte> -> bool)
    requires NEWLINE !in line
    ensures First(Items(line) + ([Data(NEWLINE)] + rest), valid) == (Judged(line, true, valid), rest)
  {
    var tail := [Data(NEWLINE)] + rest;
    PrefixOf(Items(line) + tail, line, tail);
    assert tail[1..] == rest;
  }

  lemma {:induction false} FirstAtFault(line: seq<Byte>, rest: seq<Item>, valid: seq<Byte> -> bool)
    requires NEWLINE !in line
    ensures First(Items(line) + ([Fault] + rest), valid) == (Failure(Io), rest)
  {
    var tail := [Fault] + rest;
    PrefixOf(Items(line) + tail, line, tail);
    assert tail[1..] == rest;
  }

  lemma {:induction false} FirstAtEnd(line: seq<Byte>, valid: seq<Byte> -> bool)
    requires NEWLINE !in line
    ensures First(Items(line), valid) == (if line == [] then Nothing else Judged(line, false, valid), [])
  {
    assert Items(line) + [] == Items(line);
    PrefixOf(Items(line), line, []);
    assert Items(line)[..|line|] == Items(line);
  }

  // What the bytes of a line make of it, if they are followed by a newline or by the end of the stream.
  predicate Makes(line: seq<Byte>, terminated: bool, valid: seq<Byte> -> bool, outcome: Outcome) {
    var text := if |line| > 0 && line[|line| - 1] == 13 then line[..|line| - 1] else line;
    if |line| <= 4194304 && valid(text) then outcome == Record(text, terminated)
    else if !terminated then outcome == Failure(Unterminated)
    else outcome == Failure(if |line| > 4194304 then LimitExceeded else Parse)
  }

  /** A line of up to 4 MiB of valid text is a record, without a carriage return at its end; a longer one, an invalid
      one and one cut off by the end of the stream are told apart; and a failing reader is an input error. */
  lemma {:induction false} LineMakes(line: seq<Byte>, rest: seq<Item>, valid: seq<Byte> -> bool)
    requires 10 !in line
    ensures
      var (outcome, after) := First(Items(line) + ([Data(10)] + rest), valid);
      after == rest && Makes(line, true, valid, outcome)
    ensures First(Items(line) + ([Fault] + rest), valid) == (Failure(Io), rest)
    ensures
      var (outcome, after) := First(Items(line), valid);
      after == [] && if line == [] then outcome == Nothing else Makes(line, false, valid, outcome)
  {
    FirstAtNewline(line, rest, valid);
    FirstAtFault(line, rest, valid);
    FirstAtEnd(line, valid);
  }

  // How a line that starts with `line` ends.
  datatype Ending = AtNewline | AtFault | AtEnd

  ghost predicate Ends(items: seq<Item>, whole: seq<Byte>, rest: seq<Item>, ending: Ending) {
    && NEWLINE !in whole
    && match ending {
         case AtNewline => items == Items(whole) + ([Data(NEWLINE)] + rest)
         case AtFault => items == Items(whole) + ([Fault] + rest)
         case AtEnd => items == Items(whole) && rest == []
       }
  }

  lemma {:induction false} WholeLine(items: seq<Item>, whole: seq<Byte>, rest: seq<Item>, ending: Ending)
    requires Ends(items, whole, rest, ending)
    ensures LineOf(items) == whole
  {
    match ending {
      case AtNewline => PrefixOf(items, whole, [Data(NEWLINE)] + rest);
      case AtFault => PrefixOf(items, whole, [Fault] + rest);
      case AtEnd =>
        assert items == Items(whole) + [];
        PrefixOf(items, whole, []);
    }
  }

  lemma {:induction false} Ended(items: seq<Item>, whole: seq<Byte>, rest: seq<Item>, ending: Ending,
          valid: seq<Byte> -> bool)
    requires Ends(items, whole, rest, ending)
    ensures First(items, valid) ==
      (match ending
         case AtNewline => Judged(whole, true, valid)
         case AtFault => Failure(Io)
         case AtEnd => if whole == [] then Nothing else Judged(whole, false, valid),
       rest)
    ensures LineOf(items) == whole
  {
    WholeLine(items, whole, rest, ending);
    match ending {
      case AtNewline => FirstAtNewline(whole, rest, valid);
      case AtFault => FirstAtFault(whole, rest, valid);
      case AtEnd => FirstAtEnd(whole, valid);
    }
  }

  // One buffer taken from the reader when it holds no newline.
  method TakeBuffer(reader: Reader, buffer: seq<Byte>, ghost items: seq<Item>, ghost line: seq<Byte>)
    requires reader.Valid() && |reader.sources| > 0 && reader.sources[0] == Chunk(buffer) && |buffer| > 0
    requires items == Items(line) + reader.Stream() && NEWLINE !in line && NEWLINE !in buffer
    modifies reader
    ensures reader.Valid() && |reader.Stream()| < |old(reader.Stream())|
    ensures items == Items(line + buffer) + reader.Stream() && NEWLINE !in line + buffer
  {
    reader.Consume(|buffer|);
    assert buffer[..|buffer|] == buffer;
    ItemsAdd(line, buffer);
  }

  // The part of a buffer up to and including its first newline.
  method TakeLine(reader: Reader, buffer: seq<Byte>, position: nat, ghost items: seq<Item>, ghost line: seq<Byte>)
    requires reader.Valid() && |reader.sources| > 0 && reader.sources[0] == Chunk(buffer)
    requires position < |buffer| && buffer[position] == NEWLINE && NEWLINE !in buffer[..position]
    requires items == Items(line) + reader.Stream() && NEWLINE !in line
    modifies reader
    ensures reader.Valid() && Ends(items, line + buffer[..position], reader.Stream(), AtNewline)
  {
    reader.Consume(position + 1);
    LineEnds(line, buffer, position, reader.Stream());
  }

  lemma {:induction false} LineEnds(line: seq<Byte>, buffer: seq<Byte>, position: nat, rest: seq<Item>)
    requires position < |buffer| && buffer[position] == NEWLINE
    ensures Items(line) + (Items(buffer[..position + 1]) + rest)
      == Items(line + buffer[..position]) + ([Data(NEWLINE)] + rest)
  {
    assert buffer[..position + 1] == buffer[..position] + [NEWLINE];
    ItemsAdd(buffer[..position], [NEWLINE]);
    ItemsAdd(line, buffer[..position]);
    assert Items([NEWLINE]) == [Data(NEWLINE)];
  }

  /** Reads on to the next newline; None when the reader fails. */
  method DrainUntilNewline(reader: Reader, ghost items: seq<Item>, ghost line: seq<Byte>)
      returns (terminated: Option<bool>, ghost whole: seq<Byte>)
    requires reader.Valid() && items == Items(line) + reader.Stream() && NEWLINE !in line
    modifies reader
    ensures reader.Valid() && line <= whole
    ensures Ends(items, whole, reader.Stream(),
        if terminated.None? then AtFault else if terminated.value then AtNewline else AtEnd)
  {
    whole := line;
    while true
      invariant reader.Valid() && items == Items(whole) + reader.Stream() && NEWLINE !in whole && line <= whole
      decreases |reader.Stream()|
    {
      ghost var before := reader.Stream();
      var buffer := reader.FillBuffer();
      if buffer.None? {
        assert before == [Fault] + reader.Stream();
        return None, whole;
      }
      if buffer.value == [] {
        assert items == Items(whole);
        return Some(false), whole;
      }
      var position := Position(buffer.value);
      if position.Some? {
        TakeLine(reader, buffer.value, position.value, items, whole);
        return Some(true), whole + buffer.value[..position.value];
      }
      TakeBuffer(reader, buffer.value, items, whole);
      whole := whole + buffer.value;
    }
  }

  // The line read so far, which never grows past the limit; `peak` is the most it ever held.
  class LineBuffer {
    var bytes: seq<Byte>
    ghost var peak: nat

    ghost predicate Valid()
      reads this
    {
      |bytes| <= peak <= MAX_LINE
    }

    constructor ()
      ensures Valid() && bytes == [] && peak == 0
    {
      bytes, peak := [], 0;
    }

    method Extend(more: seq<Byte>)
      requires Valid() && |bytes| + |more| <= MAX_LINE
      modifies this
      ensures Valid() && bytes == old(bytes) + more
      ensures peak == if |bytes| > old(peak) then |bytes| else old(peak)
    {
      bytes := bytes + more;
      if |bytes| > peak {
        peak := |bytes|;
      }
    }

    method DropReturn()
      requires Valid()
      modifies this
      ensures Valid() && bytes == Stripped(old(bytes)) && peak == old(peak)
    {
      if |bytes| > 0 && bytes[|bytes| - 1] == RETURN {
        bytes := bytes[..|bytes| - 1];
      }
    }
  }

  method Decode(line: LineBuffer, terminated: bool, valid: seq<Byte> -> bool) returns (outcome: Outcome)
    requires line.Valid()
    modifies line
    ensures line.Valid() && line.bytes == Stripped(old(line.bytes))
    ensures outcome == Judged(old(line.bytes), terminated, valid)
  {
    line.DropReturn();
    if valid(line.bytes) {
      return Record(line.bytes, terminated);
    }
    outcome := Failure(if terminated then Parse else Unterminated);
  }

  /** One record: the result and the place where reading goes on are those of the stream, whatever its
      chunks. The line is gathered in a buffer that never holds more than the limit, nor anything but a
      beginning of the line, and a record is what the buffer holds in the end. */
  method ReadRecord(reader: Reader, valid: seq<Byte> -> bool) returns (outcome: Outcome, line: LineBuffer)
    requires reader.Valid()
    modifies reader
    ensures reader.Valid() && (outcome, reader.Stream()) == First(old(reader.Stream()), valid)
    ensures fresh(line) && line.Valid() && line.peak <= MAX_LINE && line.bytes <= LineOf(old(reader.Stream()))
    ensures outcome.Record? ==> outcome.text == line.bytes
  {
    ghost var items := reader.Stream();
    line := new LineBuffer();
    assert Items(line.bytes) + items == items;
    while true
      invariant reader.Valid() && items == Items(line.bytes) + reader.Stream() && NEWLINE !in line.bytes
      invariant fresh(line) && line.Valid()
      decreases |reader.Stream()|
    {
      ghost var before := reader.Stream();
      var buffer := reader.FillBuffer();
      if buffer.None? {
        assert before == [Fault] + reader.Stream();
        Ended(items, line.bytes, reader.Stream(), AtFault, valid);
        return Failure(Io), line;
      }
      if buffer.value == [] {
        outcome := EndStream(items, line, valid);
        return;
      }
      var position := Position(buffer.value);
      if position.Some? {
        outcome := EndLine(reader, items, line, buffer.value, position.value, valid);
        return;
      }
      var tooLong := KeepBuffer(reader, items, line, buffer.value, valid);
      if tooLong.Some? {
        return tooLong.value, line;
      }
    }
  }

  // The buffer is all in the middle of the line, which may become too long by it.
  method KeepBuffer(reader: Reader, ghost items: seq<Item>, line: LineBuffer, buffer: seq<Byte>,
          ghost valid: seq<Byte> -> bool)
      returns (tooLong: Option<Outcome>)
    requires reader.Valid() && line.Valid() && items == Items(line.bytes) + reader.Stream() && NEWLINE !in line.bytes
    requires |reader.sources| > 0 && reader.sources[0] == Chunk(buffer) && |buffer| > 0 && NEWLINE !in buffer
    modifies reader, line
    ensures reader.Valid() && line.Valid() && |reader.Stream()| < |old(reader.Stream())|
    ensures tooLong.None? ==> items == Items(line.bytes) + reader.Stream() && NEWLINE !in line.bytes
    ensures tooLong.Some? ==>
      && (tooLong.value, reader.Stream()) == First(items, valid) && line.bytes <= LineOf(items)
      && tooLong.value.Failure?
  {
    TakeBuffer(reader, buffer, items, line.bytes);
    if |line.bytes| + |buffer| > MAX_LINE {
      var outcome := SkipLine(reader, items, line.bytes, buffer, valid);
      return Some(outcome);
    }
    line.Extend(buffer);
    return None;
  }

  // The buffer holds the end of the line.
  method EndLine(reader: Reader, ghost items: seq<Item>, line: LineBuffer, buffer: seq<Byte>, position: nat,
          valid: seq<Byte> -> bool)
      returns (outcome: Outcome)
    requires reader.Valid() && line.Valid() && items == Items(line.bytes) + reader.Stream() && NEWLINE !in line.bytes
    requires |reader.sources| > 0 && reader.sources[0] == Chunk(buffer)
    requires position < |buffer| && buffer[position] == NEWLINE && NEWLINE !in buffer[..position]
    modifies reader, line
    ensures reader.Valid() && (outcome, reader.Stream()) == First(items, valid)
    ensures line.Valid() && line.bytes <= LineOf(items) && (outcome.Record? ==> outcome.text == line.bytes)
  {
    TakeLine(reader, buffer, position, items, line.bytes);
    Ended(items, line.bytes + buffer[..position], reader.Stream(), AtNewline, valid);
    if |line.bytes| + position > MAX_LINE {
      return Failure(LimitExceeded);
    }
    line.Extend(buffer[..position]);
    outcome := Decode(line, true, valid);
  }

  // The stream is at its end.
  method EndStream(ghost items: seq<Item>, line: LineBuffer, valid: seq<Byte> -> bool) returns (outcome: Outcome)
    requires line.Valid() && items == Items(line.bytes) && NEWLINE !in line.bytes
    modifies line
    ensures (outcome, []) == First(items, valid)
    ensures line.Valid() && line.bytes <= LineOf(items) && (outcome.Record? ==> outcome.text == line.bytes)
  {
    Ended(items, line.bytes, [], AtEnd, valid);
    if line.bytes == [] {
      return Nothing;
    }
    outcome := Decode(line, false, valid);
  }

  // The rest of a line that is too long is read and dropped.
  method SkipLine(reader: Reader, ghost items: seq<Item>, ghost line: seq<Byte>, ghost more: seq<Byte>,
          ghost valid: seq<Byte> -> bool)
      returns (outcome: Outcome)
    requires reader.Valid() && items == Items(line + more) + reader.Stream() && NEWLINE !in line + more
    requires |line| + |more| > MAX_LINE
    modifies reader
    ensures reader.Valid() && (outcome, reader.Stream()) == First(items, valid) && line <= LineOf(items)
    ensures outcome.Failure? && |reader.Stream()| <= |old(reader.Stream())|
  {
    ghost var whole;
    var terminated;
    terminated, whole := DrainUntilNewline(reader, items, line + more);
    Ended(items, whole, reader.Stream(),
      if terminated.None? then AtFault else if terminated.value then AtNewline else AtEnd, valid);
    if terminated.None? {
      return Failure(Io);
    }
    outcome := Failure(if terminated.value then LimitExceeded else Unterminated);
  }

  /** Only a terminated record is a line. */
  method ReadLine(reader: Reader, valid: seq<Byte> -> bool) returns (line: Result<Option<seq<Byte>>, Error>)
    requires reader.Valid()
    modifies reader
    ensures reader.Valid() && reader.Stream() == First(old(reader.Stream()), valid).1
    ensures line == match First(old(reader.Stream()), valid).0
                    case Nothing => Ok(None)
                    case Record(text, terminated) => if terminated then Ok(Some(text)) else Err(Unterminated)
                    case Failure(error) => Err(error)
  {
    var outcome, _ := ReadRecord(reader, valid);
    match outcome
    case Nothing => line := Ok(None);
    case Record(text, terminated) => line := if terminated then Ok(Some(text)) else Err(Unterminated);
    case Failure(error) => line := Err(error);
  }

  lemma {:induction false} NothingAtEndOnly(items: seq<Item>, valid: seq<Byte> -> bool)
    ensures First(items, valid).0 == Nothing <==> items == []
    ensures items != [] ==> |First(items, valid).1| < |items|
  {
  }

  lemma {:induction false} OneMore(total: seq<Outcome>, outcomes: seq<Outcome>, items: seq<Item>, outcome: Outcome,
                                   rest: seq<Item>, valid: seq<Byte> -> bool)
    requires total == outcomes + All(items, valid) && items != [] && First(items, valid) == (outcome, rest)
    ensures total == (outcomes + [outcome]) + All(rest, valid)
  {
    assert All(items, valid) == [outcome] + All(rest, valid);
  }

  /** Reading on until there is nothing left, past every error. */
  method ReadAll(reader: Reader, valid: seq<Byte> -> bool) returns (outcomes: seq<Outcome>)
    requires reader.Valid()
    modifies reader
    ensures outcomes == All(old(reader.Stream()), valid) && reader.Stream() == []
  {
    ghost var total := All(reader.Stream(), valid);
    outcomes := [];
    while true
      invariant reader.Valid() && total == outcomes + All(reader.Stream(), valid)
      decreases |reader.Stream()|
    {
      ghost var before := reader.Stream();
      NothingAtEndOnly(before, valid);
      var outcome, _ := ReadRecord(reader, valid);
      if outcome == Nothing {
        return;
      }
      OneMore(total, outcomes, before, outcome, reader.Stream(), valid);
      outcomes := outcomes + [outcome];
    }
  }

  // ---- splitting the whole stream on newlines ----

  function NewlineAt(bytes: seq<Byte>): (k: nat)
    ensures k <= |bytes| && NEWLINE !in bytes[..k] && (k < |bytes| ==> bytes[k] == NEWLINE)
  {
    if |bytes| == 0 || bytes[0] == NEWLINE then 0
    else
      var k := NewlineAt(bytes[1..]);
      assert bytes[..k + 1] == [bytes[0]] + bytes[1..][..k];
      k + 1
  }

  function Pieces(bytes: seq<Byte>): (pieces: seq<seq<Byte>>)
    ensures |pieces| > 0
    decreases |bytes|
  {
    var k := NewlineAt(bytes);
    if k == |bytes| then [bytes] else [bytes[..k]] + Pieces(bytes[k + 1..])
  }

  function Joined(pieces: seq<seq<Byte>>): seq<Byte>
    requires |pieces| > 0
  {
    if |pieces| == 1 then pieces[0] else pieces[0] + [NEWLINE] + Joined(pieces[1..])
  }

  /** Splitting on newlines and joining with newlines undo each other. */
  lemma {:induction false} SplitAndJoin(bytes: seq<Byte>, pieces: seq<seq<Byte>>)
    requires |pieces| > 0 && forall i :: 0 <= i < |pieces| ==> NEWLINE !in pieces[i]
    ensures Joined(pieces) == bytes <==> Pieces(bytes) == pieces
  {
    JoinOfSplit(bytes);
    SplitOfJoin(pieces);
  }

  lemma {:induction false} CutAt(bytes: seq<Byte>, k: nat)
    requires k < |bytes| && bytes[k] == NEWLINE
    ensures bytes[..k] + [NEWLINE] + bytes[k + 1..] == bytes
  {
  }

  lemma {:induction false} JoinedMore(piece: seq<Byte>, pieces: seq<seq<Byte>>)
    requires |pieces| > 0
    ensures Joined([piece] + pieces) == piece + [NEWLINE] + Joined(pieces)
  {
    assert ([piece] + pieces)[1..] == pieces;
  }

  lemma {:induction false} JoinOfSplit(bytes: seq<Byte>)
    ensures Joined(Pieces(bytes)) == bytes
    decreases |bytes|
  {
    var k := NewlineAt(bytes);
    if k < |bytes| {
      JoinOfSplit(bytes[k + 1..]);
      JoinedMore(bytes[..k], Pieces(bytes[k + 1..]));
      CutAt(bytes, k);
    }
  }

  lemma {:induction false} NewlineIs(bytes: seq<Byte>, k: nat)
    requires k <= |bytes| && NEWLINE !in bytes[..k] && (k < |bytes| ==> bytes[k] == NEWLINE)
    ensures NewlineAt(bytes) == k
  {
    if k > 0 {
      assert bytes[0] == bytes[..k][0];
      assert bytes[1..][..k - 1] == bytes[..k][1..];
      NewlineIs(bytes[1..], k - 1);
    }
  }

  lemma {:induction false} SplitOfJoin(pieces: seq<seq<Byte>>)
    requires |pieces| > 0 && forall i :: 0 <= i < |pieces| ==> NEWLINE !in pieces[i]
    ensures Pieces(Joined(pieces)) == pieces
  {
    var bytes := Joined(pieces);
    var k := |pieces[0]|;
    assert bytes[..k] == pieces[0];
    NewlineIs(bytes, k);
    if |pieces| > 1 {
      assert bytes[k + 1..] == Joined(pieces[1..]);
      SplitOfJoin(pieces[1..]);
    }
  }

  // The pieces judged: all but the last were ended by a newline, and an empty last piece is no record.
  function Classified(pieces: seq<seq<Byte>>, valid: seq<Byte> -> bool): seq<Outcome> {
    if |pieces| == 0 then []
    else if |pieces| == 1 then if pieces[0] == [] then [] else [Judged(pieces[0], false, valid)]
    else [Judged(pieces[0], true, valid)] + Classified(pieces[1..], valid)
  }

  lemma {:induction false} LineThenRest(line: seq<Byte>, rest: seq<Byte>, valid: seq<Byte> -> bool)
    requires NEWLINE !in line
    ensures All(Items(line + ([NEWLINE] + rest)), valid) == [Judged(line, true, valid)] + All(Items(rest), valid)
  {
    ItemsAdd(line, [NEWLINE] + rest);
    ItemsAdd([NEWLINE], rest);
    assert Items([NEWLINE]) == [Data(NEWLINE)];
    FirstAtNewline(line, Items(rest), valid);
  }

  /** Without faults, the records of a stream are exactly its split on newlines, piece by piece. */
  lemma {:induction false} RecordsAreTheSplit(bytes: seq<Byte>, valid: seq<Byte> -> bool)
    ensures All(Items(bytes), valid) == Classified(Pieces(bytes), valid)
    decreases |bytes|
  {
    var k := NewlineAt(bytes);
    if k == |bytes| {
      assert bytes[..k] == bytes;
      FirstAtEnd(bytes, valid);
    } else {
      var line, rest := bytes[..k], bytes[k + 1..];
      assert bytes == line + ([NEWLINE] + rest);
      LineThenRest(line, rest, valid);
      RecordsAreTheSplit(rest, valid);
      assert ([line] + Pieces(rest))[1..] == Pieces(rest);
    }
  }

  function WithReturn(line: seq<Byte>, crlf: bool): seq<Byte> { if crlf then line + [RETURN] else line }

  // Lines as a writer sends them.
  function Sent(lines: seq<seq<Byte>>, crlf: bool): seq<Byte> {
    if |lines| == 0 then []
    else WithReturn(lines[0], crlf) + ([NEWLINE] + Sent(lines[1..], crlf))
  }

  predicate Sendable(line: seq<Byte>, crlf: bool, valid: seq<Byte> -> bool) {
    && NEWLINE !in line && valid(line) && |line| + (if crlf then 1 else 0) <= MAX_LINE
    && (!crlf ==> |line| == 0 || line[|line| - 1] != RETURN)
  }

  function Received(lines: seq<seq<Byte>>): seq<Outcome> {
    seq(|lines|, i requires 0 <= i < |lines| => Record(lines[i], true))
  }

  /** What is sent line by line is read back line by line. */
  lemma {:induction false} SentIsReceived(lines: seq<seq<Byte>>, crlf: bool, valid: seq<Byte> -> bool)
    requires forall i :: 0 <= i < |lines| ==> Sendable(lines[i], crlf, valid)
    ensures All(Items(Sent(lines, crlf)), valid) == Received(lines)
  {
    if |lines| > 0 {
      SentIsReceived(lines[1..], crlf, valid);
      LineReceived(lines[0], crlf, valid);
      LineThenRest(WithReturn(lines[0], crlf), Sent(lines[1..], crlf), valid);
      assert Received(lines) == [Record(lines[0], true)] + Received(lines[1..]);
    }
  }

  lemma {:induction false} LineReceived(line: seq<Byte>, crlf: bool, valid: seq<Byte> -> bool)
    requires Sendable(line, crlf, valid)
    ensures Judged(WithReturn(line, crlf), true, valid) == Record(line, true) && NEWLINE !in WithReturn(line, crlf)
  {
    assert (line + [RETURN])[..|line|] == line;
  }
}
