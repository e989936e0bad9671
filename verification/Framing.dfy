/** The wire format of a session: newline-ended control frames of bounded length, and
    after a chunk header exactly as many raw bytes as it announces. */
module Framing {
  import opened Names
  import opened Disk

  const MAXIMUM_FRAME_BYTES := 4096
  const NEWLINE: Byte := 10

  /** The message codec stays opaque. `payload` is how many raw bytes follow the frame. */
  datatype Codec<!T> = Codec(encode: T -> Option<seq<Byte>>, decode: seq<Byte> -> Option<T>, payload: T -> int)

  /** What is assumed of it: an encoding has no newline (section 7 of RFC 8259 has
      control characters in strings escaped) and decodes to its message. */
  ghost predicate Faithful<T(!new)>(codec: Codec<T>) {
    forall m :: codec.encode(m).Some? ==>
      && NEWLINE !in codec.encode(m).value
      && codec.decode(codec.encode(m).value + [NEWLINE]) == Some(m)
  }

  datatype Record<T> = Record(message: T, bytes: seq<Byte>)

  /** The writer takes this record: its frame fits, its payload has the announced size. */
  predicate Sendable<T>(codec: Codec<T>, record: Record<T>) {
    && codec.encode(record.message).Some?
    && |codec.encode(record.message).value| + 1 <= MAXIMUM_FRAME_BYTES
    && |record.bytes| == codec.payload(record.message)
  }

  predicate AllSendable<T>(codec: Codec<T>, records: seq<Record<T>>) {
    forall i | 0 <= i < |records| :: Sendable(codec, records[i])
  }

  function Frame<T>(codec: Codec<T>, message: T): seq<Byte>
    requires codec.encode(message).Some?
  {
    codec.encode(message).value + [NEWLINE]
  }

  function WireBytes<T>(codec: Codec<T>, records: seq<Record<T>>): seq<Byte>
    requires AllSendable(codec, records)
  {
    if records == [] then []
    else Frame(codec, records[0].message) + records[0].bytes + WireBytes(codec, records[1..])
  }

  // ---- reading ----

  /** The first newline among the first `window` bytes. */
  function FirstNewline(input: seq<Byte>, window: nat): (at: Option<nat>)
    ensures at.Some? ==> at.value < |input| && at.value < window && input[at.value] == NEWLINE
    ensures at.Some? ==> forall i | 0 <= i < at.value :: input[i] != NEWLINE
    ensures at.None? ==> forall i | 0 <= i < |input| && i < window :: input[i] != NEWLINE
  {
    if input == [] || window == 0 then None
    else if input[0] == NEWLINE then Some(0)
    else
      assert forall i | 0 < i < |input| :: input[i] == input[1..][i - 1];
      match FirstNewline(input[1..], window - 1)
      case None => None
      case Some(k) => Some(k + 1)
  }

  datatype Line = Line(bytes: seq<Byte>) | TooLong | Ended

  /** The reader's buffer holds one frame: a full buffer without a newline is an error. */
  function NextLine(input: seq<Byte>): (line: Line)
    ensures line.Line? ==> |line.bytes| <= MAXIMUM_FRAME_BYTES && line.bytes <= input
  {
    match FirstNewline(input, MAXIMUM_FRAME_BYTES)
    case Some(k) => Line(input[..k + 1])
    case None => if |input| >= MAXIMUM_FRAME_BYTES then TooLong else Ended
  }

  /** A frame is read back exactly when it fits the writer's limit, whatever follows it. */
  lemma FrameFitsIffReadable(encoded: seq<Byte>, rest: seq<Byte>)
    requires NEWLINE !in encoded
    ensures NextLine(encoded + [NEWLINE] + rest) == Line(encoded + [NEWLINE]) <==> |encoded| + 1 <= MAXIMUM_FRAME_BYTES
    ensures |encoded| + 1 > MAXIMUM_FRAME_BYTES ==> NextLine(encoded + [NEWLINE] + rest) == TooLong
  {
    var input := encoded + [NEWLINE] + rest;
    var found := FirstNewline(input, MAXIMUM_FRAME_BYTES);
    assert input[|encoded|] == NEWLINE;
    assert forall k | 0 <= k < |encoded| :: input[k] == encoded[k];
    if |encoded| < MAXIMUM_FRAME_BYTES {
      assert found == Some(|encoded|);
      assert input[..|encoded| + 1] == encoded + [NEWLINE];
    }
  }

  /** Everything a reader makes of the bytes so far, and whether it is still waiting for
      more (an unfinished record) rather than refusing. */
  datatype Reading<T> = Reading(records: seq<Record<T>>, refused: bool)

  function ReadRecords<T>(codec: Codec<T>, input: seq<Byte>): Reading<T>
    decreases |input|
  {
    match NextLine(input)
    case TooLong => Reading([], true)
    case Ended => Reading([], false)
    case Line(line) =>
      match codec.decode(line)
      case None => Reading([], true)
      case Some(message) =>
        var size, rest := codec.payload(message), input[|line|..];
        if line == [] || size < 0 then Reading([], true)
        else if size > |rest| then Reading([], false)
        else
          var later := ReadRecords(codec, rest[size..]);
          Reading([Record(message, rest[..size])] + later.records, later.refused)
  }

  lemma ReadOneRecord<T(!new)>(codec: Codec<T>, record: Record<T>, rest: seq<Byte>)
    requires Faithful(codec) && Sendable(codec, record)
    ensures var later := ReadRecords(codec, rest);
            ReadRecords(codec, Frame(codec, record.message) + record.bytes + rest)
            == Reading([record] + later.records, later.refused)
  {
    var frame := Frame(codec, record.message);
    var input := frame + record.bytes + rest;
    FrameFitsIffReadable(codec.encode(record.message).value, record.bytes + rest);
    assert input == frame + (record.bytes + rest);
    assert input[|frame|..] == record.bytes + rest;
    assert (record.bytes + rest)[..|record.bytes|] == record.bytes;
    assert (record.bytes + rest)[|record.bytes|..] == rest;
  }

  /** What is written is what is read: frames and payloads, newlines in payloads and all. */
  lemma {:induction false} RoundTrip<T(!new)>(codec: Codec<T>, records: seq<Record<T>>)
    requires Faithful(codec) && AllSendable(codec, records)
    ensures ReadRecords(codec, WireBytes(codec, records)) == Reading(records, false)
  {
    if records != [] {
      RoundTrip(codec, records[1..]);
      ReadOneRecord(codec, records[0], WireBytes(codec, records[1..]));
      assert [records[0]] + records[1..] == records;
    }
  }

  lemma PrefixOnTheWire<T>(codec: Codec<T>, records: seq<Record<T>>, n: nat)
    requires n < |records| && AllSendable(codec, records)
    ensures |WireBytes(codec, records[..n + 1])|
         == |Frame(codec, records[0].message)| + |records[0].bytes| + |WireBytes(codec, records[1..][..n])|
  {
    assert records[..n + 1][0] == records[0];
    assert records[..n + 1][1..] == records[1..][..n];
  }

  /** What a reader has of a stream cut after `k` bytes: the records that arrived whole. */
  ghost predicate WholeRecords<T>(codec: Codec<T>, records: seq<Record<T>>, k: nat, reading: Reading<T>)
    requires AllSendable(codec, records)
  {
    && !reading.refused && reading.records <= records
    && |WireBytes(codec, records[..|reading.records|])| <= k
    && (|reading.records| < |records| ==> k < |WireBytes(codec, records[..|reading.records| + 1])|)
  }

  /** A connection cut anywhere yields the records that arrived whole, and never a record
      that was not sent or a refusal. */
  lemma {:induction false} TruncationYieldsAPrefix<T(!new)>(codec: Codec<T>, records: seq<Record<T>>, k: nat)
    requires Faithful(codec) && AllSendable(codec, records)
    requires k <= |WireBytes(codec, records)|
    ensures WholeRecords(codec, records, k, ReadRecords(codec, WireBytes(codec, records)[..k]))
  {
    hide Frame, Faithful, ReadRecords;
    var whole := WireBytes(codec, records);
    if records == [] {
      assert whole[..k] == [];
      RoundTrip(codec, records);
    } else {
      var first := Frame(codec, records[0].message) + records[0].bytes;
      var rest := WireBytes(codec, records[1..]);
      PrefixOnTheWire(codec, records, 0);
      if |first| <= k {
        assert whole[..k] == first + rest[..k - |first|];
        TruncationYieldsAPrefix(codec, records[1..], k - |first|);
        ReadOneRecord(codec, records[0], rest[..k - |first|]);
        LaterRecords(codec, records, k, k - |first|, ReadRecords(codec, rest[..k - |first|]));
      } else {
        assert whole[..k] == first[..k];
        CutRecordIsAwaited(codec, records[0], k);
      }
    }
  }

  lemma LaterRecords<T>(codec: Codec<T>, records: seq<Record<T>>, k: nat, k': nat, later: Reading<T>)
    requires records != [] && AllSendable(codec, records)
    requires k == |Frame(codec, records[0].message)| + |records[0].bytes| + k'
    requires WholeRecords(codec, records[1..], k', later)
    ensures WholeRecords(codec, records, k, Reading([records[0]] + later.records, later.refused))
  {
    hide Frame;
    PrefixOnTheWire(codec, records, |later.records|);
    if |later.records| + 1 < |records| {
      PrefixOnTheWire(codec, records, |later.records| + 1);
    }
    assert [records[0]] + records[1..] == records;
  }

  lemma CutRecordIsAwaited<T(!new)>(codec: Codec<T>, record: Record<T>, k: nat)
    requires Faithful(codec) && Sendable(codec, record)
    requires k < |Frame(codec, record.message) + record.bytes|
    ensures ReadRecords(codec, (Frame(codec, record.message) + record.bytes)[..k]) == Reading([], false)
  {
    var encoded, frame := codec.encode(record.message).value, Frame(codec, record.message);
    var input := (frame + record.bytes)[..k];
    if k < |frame| {
      assert input == encoded[..k];
    } else {
      assert input == frame + record.bytes[..k - |frame|];
      FrameFitsIffReadable(encoded, record.bytes[..k - |frame|]);
      assert input[|frame|..] == record.bytes[..k - |frame|];
    }
  }

  /** Two record sequences never share their bytes. */
  lemma WireBytesAreUnambiguous<T(!new)>(codec: Codec<T>, a: seq<Record<T>>, b: seq<Record<T>>)
    requires Faithful(codec) && AllSendable(codec, a) && AllSendable(codec, b)
    requires WireBytes(codec, a) == WireBytes(codec, b)
    ensures a == b
  {
    RoundTrip(codec, a);
    RoundTrip(codec, b);
  }

  // ---- the operations ----

  /** What one `Write` of an `io.Writer` does: takes some of the bytes, may fail. */
  datatype Answer = Answer(accepted: nat, failed: bool)

  class Sink {
    var taken: seq<Byte>
    var answers: seq<Answer>

    constructor (answers: seq<Answer>)
      ensures this.taken == [] && this.answers == answers
    {
      this.taken, this.answers := [], answers;
    }

    /** Beyond the given answers every write is taken whole. */
    method Write(bytes: seq<Byte>) returns (written: nat, failed: bool)
      modifies this
      ensures written <= |bytes| && taken == old(taken) + bytes[..written]
      ensures written == FirstWritten(bytes, old(answers)) && failed == FirstFails(old(answers))
      ensures answers == (if old(answers) == [] then [] else old(answers)[1..])
    {
      written, failed := FirstWritten(bytes, answers), FirstFails(answers);
      taken := taken + bytes[..written];
      answers := if answers == [] then [] else answers[1..];
    }
  }

  function FirstWritten(bytes: seq<Byte>, answers: seq<Answer>): (n: nat)
    ensures n <= |bytes|
  {
    if answers == [] || answers[0].accepted > |bytes| then |bytes| else answers[0].accepted
  }

  predicate FirstFails(answers: seq<Answer>) { answers != [] && answers[0].failed }

  datatype Sent = SentWhole | FrameTooLong | Unencodable | WriteFailed

  /** The remaining slice goes out in full: no write fails or takes nothing before it has. */
  predicate GoesOut(remaining: seq<Byte>, answers: seq<Answer>)
    decreases |remaining|
  {
    remaining == []
    || (!FirstFails(answers) && FirstWritten(remaining, answers) > 0
        && GoesOut(remaining[FirstWritten(remaining, answers)..], if answers == [] then [] else answers[1..]))
  }

  /** The answers still to come once the slice has gone out. */
  function AnswersLeft(remaining: seq<Byte>, answers: seq<Answer>): seq<Answer>
    decreases |remaining|
  {
    if remaining == [] || FirstFails(answers) || FirstWritten(remaining, answers) == 0 then answers
    else AnswersLeft(remaining[FirstWritten(remaining, answers)..], if answers == [] then [] else answers[1..])
  }

  lemma PartGone(before: seq<Byte>, frame: seq<Byte>, gone: nat, written: nat)
    requires gone + written <= |frame|
    ensures before + frame[..gone] + frame[gone..][..written] == before + frame[..gone + written]
    ensures before <= before + frame[..gone + written] <= before + frame
    ensures frame[gone..][written..] == frame[gone + written..]
  {
    assert frame[..gone + written] == frame[..gone] + frame[gone..][..written];
    assert before + frame == before + frame[..gone + written] + frame[gone + written..];
  }

  /** `writeFrame`: a frame over the limit writes no byte; otherwise the frame goes out
      whole, across partial writes, or a prefix of it does and the write is reported. */
  method WriteFrame<T>(codec: Codec<T>, sink: Sink, message: T) returns (sent: Sent)
    modifies sink
    ensures sent == Unencodable <==> codec.encode(message).None?
    ensures sent == FrameTooLong <==>
              codec.encode(message).Some? && |codec.encode(message).value| + 1 > MAXIMUM_FRAME_BYTES
    ensures sent == Unencodable || sent == FrameTooLong ==> sink.taken == old(sink.taken) && sink.answers == old(sink.answers)
    ensures sent == SentWhole || sent == WriteFailed ==>
              var frame := Frame(codec, message);
              && (sent == SentWhole <==> GoesOut(frame, old(sink.answers)))
              && (sent == SentWhole ==> sink.taken == old(sink.taken) + frame)
              && (sent == SentWhole ==> sink.answers == AnswersLeft(frame, old(sink.answers)))
              && old(sink.taken) <= sink.taken <= old(sink.taken) + frame
  {
    var encoded := codec.encode(message);
    if encoded.None? {
      return Unencodable;
    }
    if |encoded.value| + 1 > MAXIMUM_FRAME_BYTES {
      return FrameTooLong;
    }
    var remaining := encoded.value + [NEWLINE];
    ghost var frame, gone: nat := remaining, 0;
    while remaining != []
      invariant gone + |remaining| == |frame| && remaining == frame[gone..]
      invariant sink.taken == old(sink.taken) + frame[..gone]
      invariant AnswersLeft(frame, old(sink.answers)) == AnswersLeft(remaining, sink.answers)
      invariant GoesOut(frame, old(sink.answers)) <==> GoesOut(remaining, sink.answers)
      decreases |remaining|
    {
      var written, failed := sink.Write(remaining);
      PartGone(old(sink.taken), frame, gone, written);
      gone := gone + written;
      if failed || written == 0 {
        return WriteFailed;
      }
      remaining := remaining[written..];
    }
    return SentWhole;
  }

  class Source {
    var input: seq<Byte>

    constructor (input: seq<Byte>)
      ensures this.input == input
    {
      this.input := input;
    }

    /** `io.ReadFull` into the front of the buffer. */
    method ReadFull(buffer: array<Byte>, wanted: nat) returns (read: nat)
      requires wanted <= buffer.Length
      modifies this, buffer
      ensures read == (if |old(input)| < wanted then |old(input)| else wanted)
      ensures buffer[..read] == old(input)[..read] && input == old(input)[read..]
    {
      read := if |input| < wanted then |input| else wanted;
      for i := 0 to read
        invariant input == old(input)
        invariant buffer[..i] == input[..i]
      {
        buffer[i] := input[i];
        assert buffer[..i + 1] == buffer[..i] + [input[i]];
      }
      input := input[read..];
    }
  }

  datatype Copied = CopiedWhole | EmptyBuffer | Canceled | CopyFailed | SourceShort

  /** Every write of the next `size` bytes, in pieces of the buffer's length, is taken
      whole, and the context outlives them. */
  predicate CopyGoesThrough(size: nat, buffer: nat, answers: seq<Answer>, rounds: nat)
    requires buffer > 0
    decreases size
  {
    size == 0
    || (rounds > 0
        && (var piece := if size < buffer then size else buffer;
            && (answers != [] ==> !answers[0].failed && answers[0].accepted >= piece)
            && CopyGoesThrough(size - piece, buffer, if answers == [] then [] else answers[1..], rounds - 1)))
  }

  lemma MovedOn(before: seq<Byte>, whole: seq<Byte>, done: nat, read: nat, written: nat)
    requires done + read <= |whole| && written <= read
    ensures before + whole[..done] + whole[done..][..read][..written] == before + whole[..done + written]
    ensures whole[done..][read..] == whole[done + read..]
  {
    assert whole[done..][..read][..written] == whole[done..done + written];
    assert whole[..done + written] == whole[..done] + whole[done..done + written];
  }

  /** `copyStreamBuffer`: exactly `size` bytes move from the source to the sink through a
      fixed buffer, or an error is returned; what did move is a prefix of the source. The
      context is canceled after `rounds` rounds. */
  method CopyStreamBuffer(sink: Sink, source: Source, size: nat, buffer: array<Byte>, rounds: nat) returns (copied: Copied)
    modifies sink, source, buffer
    ensures copied == EmptyBuffer <==> buffer.Length == 0
    ensures copied == EmptyBuffer ==> sink.taken == old(sink.taken) && source.input == old(source.input)
    ensures buffer.Length > 0 ==>
              (copied == CopiedWhole <==> size <= |old(source.input)| && CopyGoesThrough(size, buffer.Length, old(sink.answers), rounds))
    ensures copied == CopiedWhole ==>
              && sink.taken == old(sink.taken) + old(source.input)[..size]
              && source.input == old(source.input)[size..]
    ensures exists n: nat :: n <= size && n <= |old(source.input)| && sink.taken == old(sink.taken) + old(source.input)[..n]
  {
    ghost var whole := source.input;
    assert sink.taken == old(sink.taken) + whole[..0];
    if buffer.Length == 0 {
      return EmptyBuffer;
    }
    var remaining: nat, left := size, rounds;
    ghost var done: nat := 0;
    while remaining > 0
      invariant done + remaining == size && done <= |whole|
      invariant sink.taken == old(sink.taken) + whole[..done] && source.input == whole[done..]
      invariant CopyGoesThrough(size, buffer.Length, old(sink.answers), rounds)
                <==> CopyGoesThrough(remaining, buffer.Length, sink.answers, left)
      decreases remaining
    {
      if left == 0 {
        return Canceled;
      }
      left := left - 1;
      var chunk := if remaining < buffer.Length then remaining else buffer.Length;
      var read := source.ReadFull(buffer, chunk);
      if read > 0 {
        var written, failed := sink.Write(buffer[..read]);
        MovedOn(old(sink.taken), whole, done, read, written);
        if failed || written != read {
          return CopyFailed;
        }
        done := done + read;
        remaining := remaining - read;
      }
      if read < chunk {
        return SourceShort;
      }
    }
    assert done == size;
    return CopiedWhole;
  }

  lemma UnhinderedWrite(remaining: seq<Byte>)
    ensures GoesOut(remaining, []) && AnswersLeft(remaining, []) == []
  {
    if remaining != [] {
      assert remaining[|remaining|..] == [];
    }
  }

  lemma {:induction false} UnhinderedCopy(size: nat, buffer: nat, rounds: nat)
    requires buffer > 0 && rounds >= size
    ensures CopyGoesThrough(size, buffer, [], rounds)
    decreases size
  {
    if size > 0 {
      UnhinderedCopy(size - (if size < buffer then size else buffer), buffer, rounds - 1);
    }
  }

  /** Frame and payload are taken whole, the frame in parts if need be. */
  predicate RecordGoesOut<T>(codec: Codec<T>, record: Record<T>, buffer: nat, answers: seq<Answer>, rounds: nat)
    requires codec.encode(record.message).Some?
  {
    var frame := Frame(codec, record.message);
    && GoesOut(frame, answers)
    && buffer > 0 && CopyGoesThrough(|record.bytes|, buffer, AnswersLeft(frame, answers), rounds)
  }

  /** A wire that answers nothing hinders nothing. */
  lemma UnhinderedRecord<T>(codec: Codec<T>, record: Record<T>, buffer: nat, rounds: nat)
    requires codec.encode(record.message).Some? && buffer > 0 && rounds >= |record.bytes|
    ensures RecordGoesOut(codec, record, buffer, [], rounds)
  {
    UnhinderedWrite(Frame(codec, record.message));
    UnhinderedCopy(|record.bytes|, buffer, rounds);
  }

  /** A session's sending side: header, then exactly the announced bytes, as one piece. */
  method SendRecord<T>(codec: Codec<T>, sink: Sink, record: Record<T>, buffer: array<Byte>, rounds: nat) returns (ok: bool)
    requires |record.bytes| == codec.payload(record.message)
    modifies sink, buffer
    ensures ok ==> Sendable(codec, record) && sink.taken == old(sink.taken) + WireBytes(codec, [record])
    ensures ok <==> Sendable(codec, record) && RecordGoesOut(codec, record, buffer.Length, old(sink.answers), rounds)
    ensures old(sink.taken) <= sink.taken
    ensures codec.encode(record.message).Some? ==>
              sink.taken <= old(sink.taken) + (Frame(codec, record.message) + record.bytes)
  {
    ghost var before := sink.taken;
    var sent := WriteFrame(codec, sink, record.message);
    if sent != SentWhole {
      if codec.encode(record.message).Some? {
        PrefixGrows(sink.taken, before, Frame(codec, record.message), record.bytes);
      }
      return false;
    }
    ghost var frame := Frame(codec, record.message);
    var source := new Source(record.bytes);
    var copied := CopyStreamBuffer(sink, source, |record.bytes|, buffer, rounds);
    ghost var n: nat :| n <= |record.bytes| && sink.taken == before + frame + record.bytes[..n];
    assert frame + record.bytes == frame + record.bytes[..n] + record.bytes[n..];
    if copied == CopiedWhole {
      assert record.bytes[..|record.bytes|] == record.bytes;
      assert WireBytes(codec, [record][1..]) == [];
      assert before + frame + record.bytes == before + (frame + record.bytes + []);
    }
    return copied == CopiedWhole;
  }

  lemma PrefixGrows(taken: seq<Byte>, before: seq<Byte>, frame: seq<Byte>, bytes: seq<Byte>)
    requires taken <= before + frame
    ensures taken <= before + (frame + bytes)
  {
    assert before + (frame + bytes) == before + frame + bytes;
  }

  datatype Got<T> = GotFrame(message: T) | GotTooLong | GotEnd | GotMalformed

  /** `readJSONFrame`: takes exactly one line off the input, or ends the session. */
  method ReadFrame<T>(codec: Codec<T>, source: Source) returns (got: Got<T>)
    modifies source
    ensures got.GotFrame? ==>
              var line := NextLine(old(source.input));
              line.Line? && codec.decode(line.bytes) == Some(got.message) && line.bytes + source.input == old(source.input)
    ensures got.GotTooLong? <==> NextLine(old(source.input)).TooLong?
    ensures got.GotEnd? <==> NextLine(old(source.input)).Ended?
    ensures got.GotMalformed? <==>
              var line := NextLine(old(source.input));
              line.Line? && codec.decode(line.bytes).None?
  {
    var line := NextLine(source.input);
    match line {
      case TooLong => return GotTooLong;
      case Ended => return GotEnd;
      case Line(bytes) =>
        source.input := source.input[|bytes|..];
        match codec.decode(bytes) {
          case None => return GotMalformed;
          case Some(message) => return GotFrame(message);
        }
    }
  }

  /** The receiving side of one record: the frame, then its payload into the sink. When
      it succeeds it has taken the next record off the stream and nothing else. */
  method ReceiveRecord<T>(codec: Codec<T>, source: Source, sink: Sink, buffer: array<Byte>, rounds: nat)
    returns (got: Got<T>, copied: Copied)
    modifies source, sink, buffer
    ensures got.GotFrame? && copied == CopiedWhole && codec.payload(got.message) >= 0 ==>
              exists bytes: seq<Byte> ::
                var now, later := ReadRecords(codec, old(source.input)), ReadRecords(codec, source.input);
                && sink.taken == old(sink.taken) + bytes
                && now == Reading([Record(got.message, bytes)] + later.records, later.refused)
    ensures got.GotFrame? && 0 <= codec.payload(got.message) <= rounds && old(sink.answers) == [] && buffer.Length > 0 ==>
              (copied == CopiedWhole <==> ReadRecords(codec, old(source.input)).records != [])
  {
    copied := CopiedWhole;
    ghost var whole := source.input;
    got := ReadFrame(codec, source);
    if got.GotFrame? && codec.payload(got.message) >= 0 {
      ghost var line := NextLine(whole).bytes;
      ghost var rest := source.input;
      ghost var size: nat := codec.payload(got.message);
      assert whole[|line|..] == rest;
      if old(sink.answers) == [] && buffer.Length > 0 && size <= rounds {
        UnhinderedCopy(size, buffer.Length, rounds);
      }
      copied := CopyStreamBuffer(sink, source, codec.payload(got.message), buffer, rounds);
      assert line != [];
      if copied == CopiedWhole {
        assert ReadRecords(codec, whole).records[0] == Record(got.message, rest[..size]);
      }
    }
  }
}
