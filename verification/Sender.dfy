/** The sender's loop over one file, as it runs: read a chunk into the reused buffer,
    check for cancellation, send it, and end with the completion frame. */
module Sender {
  import opened Manifest
  import opened Destinations
  import opened Disk
  import opened Receiver
  import opened Transfer
  import opened Summaries

  /** What the operating system makes of the source, how many checks of the cancel flag
      find it down, and how many frames the wire takes. */
  datatype Source = Source(opens: bool, unchangedBefore: bool, content: seq<Byte>, unchangedAfter: bool, checks: nat, writes: nat)

  /** A failed source is reported in a failure frame; so is a wire that fails, for which
      that frame fails in turn. */
  datatype Result = Sent | Failed | Canceled | WireFailed

  /** The chunk frames of a file from `offset` on: one at least, for an empty file too. */
  function ChunkFrames(o: Offer, entry: Entry, content: seq<Byte>, offset: nat): (frames: seq<Message>)
    requires offset <= entry.size <= |content|
    decreases entry.size - offset
  {
    if offset == entry.size then []
    else
      var size := ChunkBytes(entry, offset);
      [Chunk(o, entry, content[..offset], content[offset..offset + size])] + ChunkFrames(o, entry, content, offset + size)
  }

  function FileFrames(o: Offer, entry: Entry, content: seq<Byte>): seq<Message>
    requires 0 <= entry.size <= |content|
  {
    if entry.size == 0 then [Chunk(o, entry, [], [])] else ChunkFrames(o, entry, content, 0)
  }

  /** The frames carry the file: in order, in bounds, each where the last one ended. */
  lemma {:induction false} ChunkFramesCarry(o: Offer, entry: Entry, content: seq<Byte>, offset: nat)
    requires offset <= entry.size <= |content|
    ensures Carries(o, entry, ChunkFrames(o, entry, content, offset), content[..offset], content[..entry.size])
    decreases entry.size - offset
  {
    if offset < entry.size {
      var size := ChunkBytes(entry, offset);
      ChunkFramesCarry(o, entry, content, offset + size);
      assert content[..offset] + content[offset..offset + size] == content[..offset + size];
      assert ChunkFrames(o, entry, content, offset)[1..] == ChunkFrames(o, entry, content, offset + size);
    }
  }

  lemma FileFramesCarry(o: Offer, entry: Entry, content: seq<Byte>)
    requires 0 <= entry.size <= |content|
    ensures FileFrames(o, entry, content) != []
    ensures Carries(o, entry, FileFrames(o, entry, content), [], content[..entry.size])
  {
    if entry.size == 0 {
      assert [Chunk(o, entry, [], [])][1..] == [];
      assert [] + Chunk(o, entry, [], []).payload == content[..0];
    } else {
      ChunkFramesCarry(o, entry, content, 0);
      assert content[..0] == [];
    }
  }

  /** Every chunk but the last one is full, so there are as few of them as can be. */
  lemma {:induction false} ChunksAreFull(o: Offer, entry: Entry, content: seq<Byte>, offset: nat)
    requires offset <= entry.size <= |content|
    ensures var frames := ChunkFrames(o, entry, content, offset);
            && STREAM_CHUNK_BYTES * (|frames| - 1) < entry.size - offset <= STREAM_CHUNK_BYTES * |frames|
            && forall i | 0 <= i < |frames| - 1 :: frames[i].Content? && frames[i].size == STREAM_CHUNK_BYTES
    decreases entry.size - offset
  {
    if offset < entry.size {
      ChunksAreFull(o, entry, content, offset + ChunkBytes(entry, offset));
    }
  }

  /** How many checks a whole file takes: two for each chunk and one for the completion. */
  function ChecksNeeded(o: Offer, entry: Entry, content: seq<Byte>): nat
    requires 0 <= entry.size <= |content|
  {
    2 * |FileFrames(o, entry, content)| + 1
  }

  predicate Readable(entry: Entry, source: Source) {
    source.opens && source.unchangedBefore && |source.content| >= entry.size
  }

  /** `io.ReadFull` of the next chunk into the front of the reused buffer. */
  method ReadChunk(content: seq<Byte>, offset: nat, size: nat, buffer: array<Byte>) returns (ok: bool)
    requires offset <= |content| && size <= buffer.Length
    modifies buffer
    ensures ok <==> size <= |content| - offset
    ensures ok ==> buffer[..size] == content[offset..offset + size]
  {
    if |content| - offset < size {
      return false;
    }
    for i := 0 to size
      invariant buffer[..i] == content[offset..offset + i]
    {
      buffer[i] := content[offset + i];
    }
    return true;
  }

  /** What is on the wire after the chunks below `offset`. */
  ghost predicate SentUpTo(o: Offer, entry: Entry, content: seq<Byte>, offset: nat, sent: seq<Message>) {
    && offset <= entry.size && offset <= |content|
    && (entry.size == 0 ==> |sent| <= 1)
    && Carries(o, entry, sent, [], content[..offset])
    && (entry.size <= |content| ==>
          FileFrames(o, entry, content) == sent + (if entry.size == 0 then FileFrames(o, entry, content)[|sent|..]
                                                  else ChunkFrames(o, entry, content, offset)))
  }

  lemma NothingSent(o: Offer, entry: Entry, content: seq<Byte>)
    requires 0 <= entry.size
    ensures SentUpTo(o, entry, content, 0, [])
  {
    assert content[..0] == [];
    assert entry.size <= |content| ==> FileFrames(o, entry, content)[0..] == FileFrames(o, entry, content);
  }

  lemma ChunkSent(o: Offer, entry: Entry, content: seq<Byte>, offset: nat, sent: seq<Message>)
    requires SentUpTo(o, entry, content, offset, sent) && offset + ChunkBytes(entry, offset) <= |content|
    requires offset < entry.size || (entry.size == 0 && sent == [])
    ensures var size := ChunkBytes(entry, offset);
            SentUpTo(o, entry, content, offset + size, sent + [Chunk(o, entry, content[..offset], content[offset..offset + size])])
  {
    hide Carries, ChunkFrames, FileFrames;
    var size := ChunkBytes(entry, offset);
    var m := Chunk(o, entry, content[..offset], content[offset..offset + size]);
    CarriesAppend(o, entry, sent, [], content[..offset], m);
    assert content[..offset] + content[offset..offset + size] == content[..offset + size];
    if entry.size <= |content| {
      NextChunkFrame(o, entry, content, offset, sent, m);
    }
  }

  /** The frames of the file are those sent, this one, and the rest. */
  lemma NextChunkFrame(o: Offer, entry: Entry, content: seq<Byte>, offset: nat, sent: seq<Message>, m: Message)
    requires offset <= entry.size <= |content| && (offset < entry.size || (entry.size == 0 && sent == []))
    requires m == Chunk(o, entry, content[..offset], content[offset..offset + ChunkBytes(entry, offset)])
    ensures entry.size == 0 ==> FileFrames(o, entry, content) == [m]
    ensures entry.size > 0 ==>
              sent + ChunkFrames(o, entry, content, offset)
              == (sent + [m]) + ChunkFrames(o, entry, content, offset + ChunkBytes(entry, offset))
  {
    if entry.size > 0 {
      assert ChunkFrames(o, entry, content, offset) == [m] + ChunkFrames(o, entry, content, offset + ChunkBytes(entry, offset));
    } else {
      assert content[..0] == [] && content[0..0] == [];
    }
  }

  lemma AllSent(o: Offer, entry: Entry, content: seq<Byte>, sent: seq<Message>)
    requires 0 <= entry.size && SentUpTo(o, entry, content, entry.size, sent) && (entry.size == 0 ==> sent != [])
    ensures sent == FileFrames(o, entry, content)
  {
  }

  lemma SomeLeft(o: Offer, entry: Entry, content: seq<Byte>, offset: nat, sent: seq<Message>)
    requires SentUpTo(o, entry, content, offset, sent) && entry.size <= |content|
    requires offset < entry.size || (entry.size == 0 && sent == [])
    ensures |sent| < |FileFrames(o, entry, content)|
  {
  }

  /** `sendManifestFile`. A file is sent exactly when it can be read to its approved size,
      no check finds the offer canceled and the wire takes every frame; then its chunks
      and its completion are on the wire. Otherwise a prefix of its chunks is, and no
      completion. */
  method SendManifestFile(c: Config, o: Offer, entry: Entry, source: Source, buffer: array<Byte>)
    returns (sent: seq<Message>, result: Result)
    requires 0 <= entry.size && buffer.Length == STREAM_CHUNK_BYTES
    modifies buffer
    ensures result == Sent <==>
              Readable(entry, source) && source.checks >= ChecksNeeded(o, entry, source.content)
              && source.writes > |FileFrames(o, entry, source.content)|
    ensures result == WireFailed ==> source.writes == |sent|
    ensures result == Sent ==>
              sent == FileFrames(o, entry, source.content)
                      + [Completion(c, o, entry, source.content[..entry.size], !source.unchangedAfter)]
    ensures result == Failed ==> !Readable(entry, source)
    ensures result != Sent ==> exists done: nat :: SentUpTo(o, entry, source.content, done, sent)
  {
    hide SentUpTo, FileFrames, ChunkFrames, Completion;
    sent, result := [], Failed;
    NothingSent(o, entry, source.content);
    if !source.opens || !source.unchangedBefore {
      return;
    }
    var checks: nat := source.checks;
    var offset := 0;
    while offset < entry.size || (entry.size == 0 && offset == 0)
      invariant 0 <= offset <= entry.size && offset <= |source.content|
      invariant SentUpTo(o, entry, source.content, offset, sent) && (entry.size == 0 ==> sent == [])
      invariant source.checks == checks + 2 * |sent| && |sent| <= source.writes
      decreases entry.size - offset
    {
      if entry.size <= |source.content| {
        SomeLeft(o, entry, source.content, offset, sent);
      }
      if checks == 0 {
        return sent, Canceled;
      }
      var chunkBytes := ChunkBytes(entry, offset);
      if chunkBytes > 0 {
        var ok := ReadChunk(source.content, offset, chunkBytes, buffer);
        if !ok {
          return;
        }
      }
      if checks == 1 {
        return sent, Canceled;
      }
      checks := checks - 2;
      if |sent| == source.writes {
        return sent, WireFailed;
      }
      assert buffer[..chunkBytes] == source.content[offset..offset + chunkBytes];
      ChunkSent(o, entry, source.content, offset, sent);
      sent := sent + [Content(o.id, entry.path, chunkBytes, offset, buffer[..chunkBytes])];
      offset := offset + chunkBytes;
      if entry.size == 0 {
        break;
      }
    }
    assert offset == entry.size;
    AllSent(o, entry, source.content, sent);
    if checks == 0 {
      return sent, Canceled;
    }
    if |sent| == source.writes {
      return sent, WireFailed;
    }
    var completion := Completion(c, o, entry, source.content[..entry.size], !source.unchangedAfter);
    return sent + [completion], Sent;
  }
}
