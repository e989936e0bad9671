/** Which frames of a file the receiver takes, whatever its peer sends: the next chunk, the
    completion of a whole file, one failure; every other frame ends the session. */
module Refusals {
  import opened Names
  import opened Manifest
  import opened Validation
  import opened Destinations
  import opened Disk
  import opened Staging
  import opened Receiver
  import opened Outcomes
  import opened Summaries

  /** The offer under way has this file, and it has no outcome yet. */
  ghost predicate Awaited(c: Config, o: Offer, s: State, offer: string, path: Path) {
    && s.live && s.accepted && offer == o.id
    && Key(c.fold, path) !in s.outcomes
    && exists i | 0 <= i < |o.entries| :: o.entries[i].kind == FileKind && o.entries[i].path == path
  }

  /** The size of the file at `path`. */
  ghost predicate HasSize(o: Offer, path: Path, size: int) {
    exists i | 0 <= i < |o.entries| :: o.entries[i].kind == FileKind && o.entries[i].path == path && o.entries[i].size == size
  }

  lemma SizeIsUnique(c: Config, o: Offer, i: nat, size: int)
    requires UniqueKeys(c.fold, o.entries) && i < |o.entries| && o.entries[i].kind == FileKind
    ensures HasSize(o, o.entries[i].path, size) <==> size == o.entries[i].size
  {
  }

  /** From one stage of a frame to the next, `key`'s stream grows by `bytes` and no other changes. */
  ghost predicate GrewBy(s: State, r: State, key: Path, bytes: seq<Byte>) {
    && r.streams.Keys == s.streams.Keys + {key} && Received(r, key) == Received(s, key) + bytes
    && (forall other | other in s.streams && other != key :: r.streams[other] == s.streams[other])
    && r.outcomes == s.outcomes && r.published == s.published
  }

  lemma StartGrows(c: Config, s: State, key: Path, i: nat, e: Env)
    requires key !in s.streams
    ensures GrewBy(s, StartStream(c, s, key, i, e), key, [])
  {
    hide NewTempDisk, NewTemp;
  }

  lemma WriteGrows(s: State, key: Path, bytes: seq<Byte>, w: Written)
    requires key in s.streams
    ensures GrewBy(s, WriteChunk(s, key, bytes, w), key, bytes)
  {
  }

  /** The stream that takes the chunk: the open one, or a new one. */
  lemma CurrentStream(c: Config, s: State, key: Path, i: nat, e: Env)
    ensures var current := if key in s.streams then s else StartStream(c, s, key, i, e);
            key in current.streams && current.streams[key].data == Received(s, key) && GrewBy(s, current, key, [])
  {
    hide StartStream;
    if key !in s.streams {
      StartGrows(c, s, key, i, e);
    }
  }

  lemma GrewTwice(s: State, t: State, r: State, key: Path, bytes: seq<Byte>)
    requires GrewBy(s, t, key, []) && GrewBy(t, r, key, bytes)
    ensures GrewBy(s, r, key, bytes)
  {
  }

  /** A chunk is taken exactly when it is the next one of an awaited file, stays within the
      file, is at most a mebibyte long and comes with all its bytes; these are then the only
      ones that its file grows by. */
  lemma ContentIsTakenIff(c: Config, o: Offer, s: State, m: Message, e: Env, size: int)
    requires UniqueKeys(c.fold, o.entries) && m.Content? && HasSize(o, m.path, size)
    ensures var r, key := Step(c, o, s, m, e), Key(c.fold, m.path);
            && (!r.error <==>
                  && Awaited(c, o, s, m.offer, m.path) && m.offset == |Received(s, key)|
                  && 0 <= m.size <= 1024 * 1024 && m.offset + m.size <= size && m.size <= |m.payload|)
            && (!r.error ==> GrewBy(s, r.state, key, m.payload[..m.size]) && r.replies == [])
  {
    hide UniqueKeys, RemoveIncomingFiles, StartStream, WriteChunk, GrewBy;
    var i := FindFile(o.entries, m.path).value;
    SizeIsUnique(c, o, i, size);
    var key := Key(c.fold, m.path);
    var current := if key in s.streams then s else StartStream(c, s, key, i, e);
    CurrentStream(c, s, key, i, e);
    if 0 <= m.size <= |m.payload| {
      WriteGrows(current, key, m.payload[..m.size], e.write);
      GrewTwice(s, current, WriteChunk(current, key, m.payload[..m.size], e.write), key, m.payload[..m.size]);
    }
  }

  /** A completion that does not come right after the last byte of an awaited file ends the
      session and changes nothing; any other one is the file's outcome, or ends the session
      for what the operating system or the wire answers. */
  lemma CompletionNeedsTheWholeFile(c: Config, o: Offer, s: State, m: Message, e: Env, size: int)
    requires UniqueKeys(c.fold, o.entries) && Books(c, o, s) && m.Complete? && HasSize(o, m.path, size)
    ensures var r, key := Step(c, o, s, m, e), Key(c.fold, m.path);
            var whole := Awaited(c, o, s, m.offer, m.path) && key in s.streams && |Received(s, key)| == size == m.size;
            && (!whole ==> r.error && r.state == s && r.replies == [])
            && (!r.error ==> whole && |r.replies| == 1 && r.state.outcomes == s.outcomes + {key} && r.state.streams == s.streams - {key})
  {
    hide UniqueKeys, Books, RemoveIncomingFiles, RemoveStaging, Verified, MakeParents, At;
    var i := FindFile(o.entries, m.path).value;
    SizeIsUnique(c, o, i, size);
    var key := Key(c.fold, m.path);
    if key in s.streams {
      SameEntry(c, o, s, key, i);
    }
  }

  /** A peer's failure is taken exactly when it gives a reason, for an awaited file, and the
      answer can be sent. */
  lemma FailureIsTakenIff(c: Config, o: Offer, s: State, m: Message, e: Env, size: int)
    requires UniqueKeys(c.fold, o.entries) && m.FileFailed? && HasSize(o, m.path, size) && m.path != []
    ensures var r, key := Step(c, o, s, m, e), Key(c.fold, m.path);
            && (!r.error <==> Awaited(c, o, s, m.offer, m.path) && m.reason != "" && e.sendOk)
            && (!r.error ==> r.replies == [FileResult(m.path, false)] && r.state.outcomes == s.outcomes + {key}
                             && r.state.streams == s.streams - {key} && r.state.published == s.published)
  {
    hide UniqueKeys, RemoveStaging;
    var i := FindFile(o.entries, m.path).value;
    SizeIsUnique(c, o, i, size);
  }

  /** Frames of a path that is no file of the offer are refused. */
  lemma StrangersAreRefused(c: Config, o: Offer, s: State, m: Message, e: Env)
    requires m.Content? || m.Complete? || m.FileFailed?
    requires forall size :: !HasSize(o, m.path, size)
    ensures Step(c, o, s, m, e) == Refuse(s)
  {
    if FindFile(o.entries, m.path).Some? {
      var i := FindFile(o.entries, m.path).value;
      assert HasSize(o, m.path, o.entries[i].size);
    }
  }
}
