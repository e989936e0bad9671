/** The receiving peer as the program writes it: an object whose handlers change its
    fields step by step, each proved to make the step of the state machine. */
module IncomingOffer {
  import opened Names
  import opened Destinations
  import opened Disk
  import opened Staging
  import opened Receiver
  import opened Outcomes
  import opened Publication
  import opened Sessions

  /** Remembers the first failure and keeps reporting full writes, so that the stream
      behind it is drained. */
  class RecoverableWriter {
    var content: seq<Byte>
    var failure: bool

    constructor (content: seq<Byte>, failure: bool)
      ensures this.content == content && this.failure == failure
    {
      this.content, this.failure := content, failure;
    }

    method Write(bytes: seq<Byte>, w: Written) returns (reported: nat)
      modifies this
      ensures reported == |bytes|
      ensures failure <==> old(failure) || w.failed || w.accepted != |bytes|
      ensures !failure ==> content == old(content) + bytes
      ensures content == old(content) + (if old(failure) || w.accepted > |bytes| then [] else bytes[..w.accepted])
    {
      if failure {
        return |bytes|;
      }
      if w.accepted <= |bytes| {
        content := content + bytes[..w.accepted];
      }
      if w.failed {
        failure := true;
        return |bytes|;
      }
      if w.accepted != |bytes| {
        failure := true;
        return |bytes|;
      }
      reported := w.accepted;
    }
  }

  lemma RemovedFile(disk: Disk, p: Path)
    requires p in disk ==> disk[p].File?
    ensures Remove(disk, p) == disk - {p}
  {
  }

  ghost predicate TempsAreFilesOrGone(disk: Disk, streams: map<Path, Stream>) {
    forall key | key in streams && streams[key].temp.Some? && streams[key].temp.value in disk ::
      disk[streams[key].temp.value].File?
  }

  lemma StillFiles(disk: Disk, streams: map<Path, Stream>, key: Path, temp: Path)
    requires TempsAreFilesOrGone(disk, streams)
    ensures TempsAreFilesOrGone(Remove(disk, temp), streams - {key})
  {
    hide IsEmpty;
  }

  lemma NothingCleared(disk: Disk, streams: map<Path, Stream>)
    ensures Clearing(disk, Temps(streams), disk, streams, {})
  {
    assert disk - {} == disk;
  }

  lemma AllCleared(disk0: Disk, all: set<Path>, disk: Disk, gone: set<Path>)
    requires Clearing(disk0, all, disk, map[], gone)
    ensures disk == disk0 - all
  {
    assert Temps(map[]) == {};
  }

  lemma OneStreamFewer(streams: map<Path, Stream>, key: Path)
    requires key in streams
    ensures |streams - {key}| < |streams|
  {
    assert streams.Keys == (streams - {key}).Keys + {key};
    assert |streams.Keys| == |streams| && |(streams - {key}).Keys| == |streams - {key}|;
  }

  lemma TempsWithout(streams: map<Path, Stream>, key: Path)
    requires key in streams
    ensures Temps(streams)
         == Temps(streams - {key}) + (if streams[key].temp.Some? then {streams[key].temp.value} else {})
  {
    var rest := streams - {key};
    forall t | t in Temps(streams) ensures t in Temps(rest) || streams[key].temp == Some(t) {
      var k :| k in streams && streams[k].temp == Some(t);
      if k != key {
        assert rest[k].temp.value in Temps(rest);
      }
    }
    forall t | t in Temps(rest) ensures t in Temps(streams) {
      var k :| k in rest && rest[k].temp == Some(t);
      assert streams[k].temp.value in Temps(streams);
    }
  }

  /** The temporary files in `gone` are deleted; those of the open streams remain. */
  ghost predicate Clearing(disk0: Disk, all: set<Path>, disk: Disk, streams: map<Path, Stream>, gone: set<Path>) {
    disk == disk0 - gone && all == gone + Temps(streams)
  }

  lemma ClearingOneMore(disk0: Disk, all: set<Path>, disk: Disk, streams: map<Path, Stream>, gone: set<Path>, key: Path)
    requires Clearing(disk0, all, disk, streams, gone) && key in streams
    requires streams[key].temp.Some? && streams[key].temp.value in disk ==> disk[streams[key].temp.value].File?
    ensures var temp := streams[key].temp;
            if temp.Some? then Clearing(disk0, all, Remove(disk, temp.value), streams - {key}, gone + {temp.value})
            else Clearing(disk0, all, disk, streams - {key}, gone)
  {
    hide Temps, Remove;
    TempsWithout(streams, key);
    if streams[key].temp.Some? {
      RemovedFile(disk, streams[key].temp.value);
    }
  }

  class Incoming {
    const c: Config
    const o: Offer
    ghost const listed: set<string>
    ghost const base: Disk
    var live: bool
    var accepted: bool
    var disk: Disk
    var receivingFiles: map<Path, Stream>
    var fileOutcomes: set<Path>
    var completedFile: nat
    var failedFile: nat
    var createdDirectories: seq<Path>
    ghost var published: map<Path, nat>

    ghost function Value(): State
      reads this
    {
      State(live, accepted, disk, receivingFiles, fileOutcomes, completedFile, failedFile, createdDirectories, published)
    }

    ghost predicate Valid()
      reads this
    {
      Setting(c, o, listed, base) && Sound(c, o, base, Value()) && Books(c, o, Value())
    }

    constructor (c: Config, o: Offer, disk: Disk, created: seq<Path>, ghost listed: set<string>, ghost base: Disk)
      requires Setting(c, o, listed, base)
      requires disk == base + Folders(FolderDestinations(c.fold, o)) + Folders({StagingPath(c.fold)})
      requires Elements(created) == FolderDestinations(c.fold, o) && ParentsFirst(created)
      ensures Valid() && Value() == Accepted(disk, created)
      ensures this.c == c && this.o == o && this.listed == listed && this.base == base
    {
      hide Setting, Sound, Books, FolderDestinations, ParentsFirst;
      this.c, this.o, this.listed, this.base := c, o, listed, base;
      live, accepted, this.disk := true, true, disk;
      receivingFiles, fileOutcomes, completedFile, failedFile := map[], {}, 0, 0;
      createdDirectories, published := created, map[];
      new;
      PreparedIsSound(c, o, listed, base, disk, created);
    }

    method RemoveEmptyStagingDirectory()
      modifies this`disk
      ensures disk == RemoveStaging(c, old(disk))
    {
      disk := Remove(disk, StagingPath(c.fold));
    }

    /** Loop over the open streams: close, delete the temporary file, forget the stream. */
    method RemoveIncomingStaging()
      requires TempsAreFilesOrGone(disk, receivingFiles)
      modifies this`disk, this`receivingFiles
      ensures receivingFiles == map[] && disk == RemoveStaging(c, old(disk) - Temps(old(receivingFiles)))
    {
      hide RemoveStaging, Remove, Temps, Clearing;
      ghost var disk0, streams := disk, receivingFiles;
      ghost var gone: set<Path> := {};
      NothingCleared(disk, receivingFiles);
      while receivingFiles != map[]
        invariant TempsAreFilesOrGone(disk, receivingFiles)
        invariant Clearing(disk0, Temps(streams), disk, receivingFiles, gone)
        decreases |receivingFiles|
      {
        var key :| key in receivingFiles;
        var temp := receivingFiles[key].temp;
        ClearingOneMore(disk0, Temps(streams), disk, receivingFiles, gone, key);
        OneStreamFewer(receivingFiles, key);
        if temp.Some? {
          StillFiles(disk, receivingFiles, key, temp.value);
          disk := Remove(disk, temp.value);
          gone := gone + {temp.value};
        }
        receivingFiles := receivingFiles - {key};
      }
      AllCleared(disk0, Temps(streams), disk, gone);
      RemoveEmptyStagingDirectory();
    }

    method RemoveCreatedDirectories()
      modifies this`disk, this`createdDirectories
      ensures disk == RemoveCreated(old(disk), old(createdDirectories)) && createdDirectories == []
    {
      disk := RemoveAllCreated(disk, createdDirectories);
      createdDirectories := [];
    }

    method RemoveFiles()
      requires TempsAreFilesOrGone(disk, receivingFiles)
      modifies this
      ensures Value() == RemoveIncomingFiles(c, old(Value()))
    {
      hide RemoveStaging, RemoveCreated;
      RemoveIncomingStaging();
      RemoveCreatedDirectories();
    }

    method RemoveStream(key: Path)
      modifies this`disk, this`receivingFiles
      ensures Value() == DropStream(c, old(Value()), key)
    {
      hide RemoveStaging, Remove;
      if key !in receivingFiles {
        return;
      }
      var temp := receivingFiles[key].temp;
      if temp.Some? {
        disk := Remove(disk, temp.value);
      }
      receivingFiles := receivingFiles - {key};
      RemoveEmptyStagingDirectory();
    }

    method FailIncomingFile(path: Path, e: Env) returns (replies: seq<Reply>, error: bool)
      modifies this
      ensures Outcome(Value(), replies, error) == FailFile(c, old(Value()), path, e)
    {
      hide DropStream;
      var key := Key(c.fold, path);
      RemoveStream(key);
      fileOutcomes := fileOutcomes + {key};
      failedFile := failedFile + 1;
      if !e.sendOk {
        return [], true;
      }
      return [FileResult(path, false)], false;
    }

    method StartReceivingFile(key: Path, i: nat, e: Env)
      modifies this`disk, this`receivingFiles
      ensures Value() == StartStream(c, old(Value()), key, i, e)
    {
      var staging := StagingPath(c.fold);
      if !e.stagingUsable || (staging in disk && disk[staging] != Folder) {
        receivingFiles := receivingFiles[key := Stream(i, None, [], false, true)];
        return;
      }
      ghost var before := disk;
      disk := disk[staging := Folder];
      if e.tempName == None || TempPath(c, e.tempName.value) in disk {
        receivingFiles := receivingFiles[key := Stream(i, None, [], false, true)];
        return;
      }
      var temp := TempPath(c, e.tempName.value);
      disk := disk[temp := File([])];
      receivingFiles := receivingFiles[key := Stream(i, Some(temp), [], false, false)];
    }

    /** Part of one chunk's way: through the recoverable writer, and into the digest. */
    method StoreChunk(key: Path, bytes: seq<Byte>, w: Written)
      requires key in receivingFiles
      modifies this`disk, this`receivingFiles
      ensures Value() == WriteChunk(old(Value()), key, bytes, w)
    {
      var stream := receivingFiles[key];
      if stream.temp.Some? && bytes != [] && stream.temp.value in disk && disk[stream.temp.value].File? {
        var writer := new RecoverableWriter(disk[stream.temp.value].content, stream.destinationFailed);
        var reported := writer.Write(bytes, w);
        assert writer.content == RecoverableContent(disk[stream.temp.value].content, stream.destinationFailed, bytes, w);
        disk := disk[stream.temp.value := File(writer.content)];
        stream := stream.(destinationFailed := writer.failure, writeFailure := stream.writeFailure || writer.failure);
      }
      receivingFiles := receivingFiles[key := stream.(data := stream.data + bytes)];
    }

    /** The bytes behind a content frame; a connection that ends before them ends the offer. */
    method TakePayload(key: Path, payload: seq<Byte>, size: int, w: Written) returns (replies: seq<Reply>, error: bool)
      requires key in receivingFiles && size >= 0 && TempsAreFilesOrGone(disk, receivingFiles)
      modifies this
      ensures Outcome(Value(), replies, error) == TakeBytes(c, old(Value()), key, payload, size, w)
    {
      hide RemoveIncomingFiles, WriteChunk, TempsAreFilesOrGone;
      if |payload| < size {
        RemoveFiles();
        live := false;
        return [], true;
      }
      StoreChunk(key, payload[..size], w);
      return [], false;
    }

    method ReceiveContentFrame(m: Message, e: Env) returns (replies: seq<Reply>, error: bool)
      requires Valid() && m.Content?
      modifies this
      ensures Outcome(Value(), replies, error) == Step(c, o, old(Value()), m, e)
      ensures !error ==> Valid()
      ensures !error ==> var key := Key(c.fold, m.path);
                         key in receivingFiles && |receivingFiles[key].data| == m.offset + m.size && fileOutcomes == old(fileOutcomes)
      ensures live ==> TempsAreFilesOrGone(disk, receivingFiles)
    {
      hide Setting, Sound, Books, StartStream, TakeBytes, TempsAreFilesOrGone, FindFile, Key;
      ContentIsStored(c, o, Value(), m, e);
      FrameKeepsAll(c, o, listed, base, Value(), m, e);
      replies := [];
      if !live || !accepted || o.id != m.offer {
        return [], true;
      }
      var found := FindFile(o.entries, m.path);
      if found == None {
        return [], true;
      }
      var entry := o.entries[found.value];
      if m.size < 0 || m.size > STREAM_CHUNK_BYTES || m.offset < 0 || m.offset > entry.size || m.size > entry.size - m.offset {
        return [], true;
      }
      var key := Key(c.fold, entry.path);
      LiveTempsAtStart(c, o, listed, base, Value(), key, found.value, e);
      if key in fileOutcomes {
        return [], true;
      }
      if key !in receivingFiles {
        if m.offset != 0 {
          return [], true;
        }
        StartReceivingFile(key, found.value, e);
      }
      if |receivingFiles[key].data| != m.offset {
        return [], true;
      }
      replies, error := TakePayload(key, m.payload, m.size, e.write);
    }

    method FinishIncomingFile(key: Path, i: nat, e: Env) returns (replies: seq<Reply>, error: bool)
      requires i < |o.entries| && key in receivingFiles && TempsAreFilesOrGone(disk, receivingFiles)
      modifies this
      ensures Outcome(Value(), replies, error) == FinishFile(c, o, old(Value()), key, i, e)
    {
      hide RemoveIncomingFiles, FailFile, Remove, At, MakeParents;
      var final := At(c.fold, o, i);
      var path := o.entries[i].path;
      if !e.pathSafe {
        RemoveFiles();
        return [], true;
      }
      if !e.parentsOk {
        return [], true;
      }
      var made := MakeParents(disk, final);
      if made == None {
        return [], true;
      }
      disk := made.value;
      var temp := receivingFiles[key].temp;
      if !e.publishOk || final in disk || temp == None || temp.value !in disk {
        replies, error := FailIncomingFile(path, e);
        return;
      }
      disk := (disk - {temp.value})[final := disk[temp.value]];
      receivingFiles := receivingFiles - {key};
      if !e.metadataOk {
        disk := Remove(disk, final);
        replies, error := FailIncomingFile(path, e);
        return;
      }
      fileOutcomes := fileOutcomes + {key};
      completedFile := completedFile + 1;
      published := published[final := i];
      if !e.sendOk {
        return [], true;
      }
      return [FileResult(path, true)], false;
    }

    method CompleteIncomingFile(m: Message, e: Env) returns (replies: seq<Reply>, error: bool)
      requires Valid() && m.Complete?
      modifies this
      ensures Outcome(Value(), replies, error) == Step(c, o, old(Value()), m, e)
      ensures !error ==> Valid()
      ensures !error ==> Key(c.fold, m.path) in fileOutcomes && Key(c.fold, m.path) !in receivingFiles && |replies| == 1
      ensures live ==> TempsAreFilesOrGone(disk, receivingFiles)
    {
      hide Setting, Sound, Books, TempsAreFilesOrGone, FailFile, FinishFile, Verified, FindFile, Key, Step;
      CompletionIsRecorded(c, o, Value(), m, e);
      FrameKeepsAll(c, o, listed, base, Value(), m, e);
      if !live || !accepted || o.id != m.offer {
        return [], true;
      }
      var found := FindFile(o.entries, m.path);
      var key := Key(c.fold, m.path);
      if found == None || key !in receivingFiles {
        return [], true;
      }
      var entry, stream := o.entries[found.value], receivingFiles[key];
      if m.size != entry.size || |stream.data| != entry.size {
        return [], true;
      }
      LiveTemps(c, o, base, Value());
      ghost var before := receivingFiles;
      if stream.temp.Some? && !(e.syncOk && e.closeOk) {
        stream := stream.(writeFailure := true);
      }
      receivingFiles := receivingFiles[key := stream];
      ClosedStillFiles(disk, before, key, stream);
      if stream.writeFailure || !Verified(c, entry, stream, m) {
        replies, error := FailIncomingFile(m.path, e);
      } else {
        replies, error := FinishIncomingFile(key, found.value, e);
      }
    }

    method ReceiveFailure(m: Message, e: Env) returns (replies: seq<Reply>, error: bool)
      requires Valid() && m.FileFailed?
      modifies this
      ensures Outcome(Value(), replies, error) == Step(c, o, old(Value()), m, e)
      ensures !error ==> Valid()
      ensures !error ==> Key(c.fold, m.path) in fileOutcomes && Key(c.fold, m.path) !in receivingFiles && replies == [FileResult(m.path, false)]
      ensures live ==> TempsAreFilesOrGone(disk, receivingFiles)
    {
      hide Setting, Sound, Books, TempsAreFilesOrGone, FailFile, FindFile;
      FailureIsRecorded(c, o, Value(), m, e);
      FrameKeepsAll(c, o, listed, base, Value(), m, e);
      if !live || !accepted || o.id != m.offer || m.path == [] || m.reason == "" {
        return [], true;
      }
      if FindFile(o.entries, m.path) == None || Key(c.fold, m.path) in fileOutcomes {
        return [], true;
      }
      replies, error := FailIncomingFile(m.path, e);
    }

    method CompleteIncomingBatch(m: Message, e: Env) returns (replies: seq<Reply>, error: bool)
      requires Valid() && m.BatchComplete?
      modifies this
      ensures Outcome(Value(), replies, error) == Step(c, o, old(Value()), m, e)
      ensures !error ==> Valid()
      ensures !error ==> fileOutcomes == FileKeys(c, o) && receivingFiles == map[] && replies == [BatchResult(failedFile == 0)]
      ensures live ==> TempsAreFilesOrGone(disk, receivingFiles)
    {
      hide Setting, Sound, Books, TempsAreFilesOrGone, RemoveStaging;
      BatchIsWhole(c, o, listed, base, Value(), m, e);
      FrameKeepsAll(c, o, listed, base, Value(), m, e);
      if !live || !accepted || o.id != m.offer || completedFile + failedFile != FileCount(o) {
        return [], true;
      }
      if !e.foldersSafe {
        return [], true;
      }
      RemoveEmptyStagingDirectory();
      var success := failedFile == 0;
      if !e.sendOk {
        return [], true;
      }
      live := false;
      return [BatchResult(success)], false;
    }

    method HandlePeerCancellation(m: Message, e: Env) returns (replies: seq<Reply>, error: bool)
      requires Valid() && m.Cancel?
      modifies this
      ensures Outcome(Value(), replies, error) == Step(c, o, old(Value()), m, e)
      ensures !error ==> Valid()
      ensures replies == [CanceledResult] ==> Ended(c, o, base, Value())
      ensures live ==> TempsAreFilesOrGone(disk, receivingFiles)
    {
      hide Setting, Sound, Books, TempsAreFilesOrGone, RemoveIncomingFiles;
      CancelLeavesClean(c, o, listed, base, Value(), m, e);
      FrameKeepsAll(c, o, listed, base, Value(), m, e);
      if !live || !accepted || o.id != m.offer {
        return [], false;
      }
      LiveTemps(c, o, base, Value());
      RemoveFiles();
      if !e.sendOk {
        return [], true;
      }
      live := false;
      return [CanceledResult], false;
    }

    method AbortOffer(m: Message, ghost e: Env) returns (replies: seq<Reply>, error: bool)
      requires Valid() && m.Abort?
      modifies this
      ensures Outcome(Value(), replies, error) == Step(c, o, old(Value()), m, e)
      ensures !error ==> Valid()
      ensures live ==> TempsAreFilesOrGone(disk, receivingFiles)
    {
      hide Setting, Sound, Books, TempsAreFilesOrGone, RemoveIncomingFiles;
      FrameKeepsAll(c, o, listed, base, Value(), m, e);
      if live && o.id == m.offer {
        LiveTemps(c, o, base, Value());
        RemoveFiles();
        live := false;
      }
      return [], false;
    }

    method CleanupIncoming()
      requires Setting(c, o, listed, base) && (live ==> TempsAreFilesOrGone(disk, receivingFiles))
      modifies this
      ensures Value() == EndSession(c, old(Value()))
    {
      hide Setting, RemoveIncomingFiles;
      if live {
        RemoveFiles();
        live := false;
      }
    }

    /** The dispatch of one frame. */
    method Serve(m: Message, e: Env) returns (replies: seq<Reply>, error: bool)
      requires Valid()
      modifies this
      ensures Outcome(Value(), replies, error) == Step(c, o, old(Value()), m, e)
      ensures !error ==> Valid()
      ensures live ==> TempsAreFilesOrGone(disk, receivingFiles)
    {
      hide Setting, Sound, Books, TempsAreFilesOrGone, Step;
      match m {
        case Content(_, _, _, _, _) => replies, error := ReceiveContentFrame(m, e);
        case Complete(_, _, _, _, _, _) => replies, error := CompleteIncomingFile(m, e);
        case FileFailed(_, _, _) => replies, error := ReceiveFailure(m, e);
        case BatchComplete(_) => replies, error := CompleteIncomingBatch(m, e);
        case Cancel(_) => replies, error := HandlePeerCancellation(m, e);
        case Abort(_) => replies, error := AbortOffer(m, e);
      }
    }

    /** The whole session: serve until the first error or the end of the frames, then
        clean up. Its replies, its error and what it leaves are the specified run's. */
    method ServeSession(frames: seq<(Message, Env)>) returns (replies: seq<Reply>, error: bool)
      requires Valid()
      modifies this
      ensures Outcome(Value(), replies, error) == Run(c, o, old(Value()), frames)
      ensures Ended(c, o, base, Value())
    {
      hide Setting, Sound, Books, Ended, Step, EndSession, TempsAreFilesOrGone;
      replies, error := [], false;
      ghost var start := Value();
      ghost var whole := Run(c, o, start, frames);
      EverySessionEndsClean(c, o, listed, base, start, frames);
      assert frames[0..] == frames;
      assert [] + whole.replies == whole.replies;
      LiveTemps(c, o, base, start);
      for i := 0 to |frames|
        invariant Valid() && (live ==> TempsAreFilesOrGone(disk, receivingFiles)) && !error
        invariant var rest := Run(c, o, Value(), frames[i..]);
                  whole == Outcome(rest.state, replies + rest.replies, rest.error)
      {
        assert frames[i..][1..] == frames[i + 1..];
        var more, failed := Serve(frames[i].0, frames[i].1);
        ghost var rest := Run(c, o, Value(), frames[i + 1..]);
        assert replies + (more + rest.replies) == (replies + more) + rest.replies;
        replies, error := replies + more, failed;
        if error {
          CleanupIncoming();
          return;
        }
      }
      assert frames[|frames|..] == [];
      CleanupIncoming();
    }
  }

  lemma TempsFromInvariant(c: Config, o: Offer, base: Disk, s: State)
    requires DiskInv(c, o, base, s)
    ensures TempsAreFilesOrGone(s.disk, s.streams)
  {
    hide Outside, TempsDistinct;
    forall key | key in s.streams && s.streams[key].temp.Some? && s.streams[key].temp.value in s.disk
      ensures s.disk[s.streams[key].temp.value].File?
    {
      assert TempKept(c, s.disk, s.streams[key]);
    }
  }

  lemma LiveTemps(c: Config, o: Offer, base: Disk, s: State)
    requires Sound(c, o, base, s)
    ensures s.live ==> TempsAreFilesOrGone(s.disk, s.streams)
  {
    hide DiskInv, TempsAreFilesOrGone, Settled, Finished;
    if s.live {
      TempsFromInvariant(c, o, base, s);
    }
  }

  /** A live offer's temporary files, also when a stream has just been started. */
  lemma LiveTempsAtStart(c: Config, o: Offer, listed: set<string>, base: Disk, s: State, key: Path, i: nat, e: Env)
    requires Setting(c, o, listed, base) && Sound(c, o, base, s) && s.live
    ensures TempsAreFilesOrGone(s.disk, s.streams)
    ensures key !in s.streams ==> var started := StartStream(c, s, key, i, e); key in started.streams && TempsAreFilesOrGone(started.disk, started.streams)
  {
    hide Setting, DiskInv, TempsAreFilesOrGone, StartStream;
    TempsFromInvariant(c, o, base, s);
    if key !in s.streams {
      StartKeepsDisk(c, o, listed, base, s, key, i, e);
      TempsFromInvariant(c, o, base, StartStream(c, s, key, i, e));
    }
  }

  // ---- what single frames leave ----

  lemma ContentIsStored(c: Config, o: Offer, s: State, m: Message, e: Env)
    requires m.Content?
    ensures var r, key := Step(c, o, s, m, e), Key(c.fold, m.path);
            !r.error ==> key in r.state.streams && |r.state.streams[key].data| == m.offset + m.size && r.state.outcomes == s.outcomes
  {
  }

  lemma CompletionIsRecorded(c: Config, o: Offer, s: State, m: Message, e: Env)
    requires m.Complete?
    ensures var r, key := Step(c, o, s, m, e), Key(c.fold, m.path);
            !r.error ==> key in r.state.outcomes && key !in r.state.streams && |r.replies| == 1
    ensures Step(c, o, s, m, e) == CompleteFile(c, o, s, m, e)
  {
    hide RemoveIncomingFiles, RemoveStaging, Remove, MakeParents, At, Verified;
  }

  lemma FailureIsRecorded(c: Config, o: Offer, s: State, m: Message, e: Env)
    requires m.FileFailed?
    ensures var r, key := Step(c, o, s, m, e), Key(c.fold, m.path);
            !r.error ==> key in r.state.outcomes && key !in r.state.streams && r.replies == [FileResult(m.path, false)]
  {
    hide RemoveStaging, Remove;
  }

  lemma BatchIsWhole(c: Config, o: Offer, listed: set<string>, base: Disk, s: State, m: Message, e: Env)
    requires Setting(c, o, listed, base) && Books(c, o, s) && m.BatchComplete?
    ensures var r := Step(c, o, s, m, e);
            !r.error ==> r.state.outcomes == FileKeys(c, o) && r.state.streams == map[] && r.replies == [BatchResult(r.state.failed == 0)]
  {
    hide Setting, Books, FileKeys, RemoveStaging;
    SettingIsUnique(c, o, listed, base);
    AcceptedBatchIsComplete(c, o, s, m, e);
  }

  lemma CancelLeavesClean(c: Config, o: Offer, listed: set<string>, base: Disk, s: State, m: Message, e: Env)
    requires Setting(c, o, listed, base) && Sound(c, o, base, s) && Books(c, o, s) && m.Cancel?
    ensures var r := Step(c, o, s, m, e); r.replies == [CanceledResult] ==> Ended(c, o, base, r.state)
  {
    hide Setting, Books, DiskInv, Ended, RemoveIncomingFiles;
    FrameKeepsAll(c, o, listed, base, s, m, e);
  }

  /** What a frame leaves, whatever it is. */
  lemma FrameKeepsAll(c: Config, o: Offer, listed: set<string>, base: Disk, s: State, m: Message, e: Env)
    requires Setting(c, o, listed, base) && Sound(c, o, base, s) && Books(c, o, s)
    ensures var r := Step(c, o, s, m, e);
            && (!r.error ==> Sound(c, o, base, r.state) && Books(c, o, r.state))
            && (r.state.live ==> TempsAreFilesOrGone(r.state.disk, r.state.streams))
  {
    hide Setting, Books, DiskInv, Settled, Finished, TempsAreFilesOrGone, Step;
    SettingIsUnique(c, o, listed, base);
    StepIsSound(c, o, listed, base, s, m, e);
    StepKeepsBooks(c, o, s, m, e);
    TempsAfterStep(c, o, base, Step(c, o, s, m, e));
  }

  lemma TempsAfterStep(c: Config, o: Offer, base: Disk, r: Outcome)
    requires SoundAfter(c, o, base, r)
    ensures r.state.live ==> TempsAreFilesOrGone(r.state.disk, r.state.streams)
  {
    hide DiskInv, Finished, FilesVerified;
    if Sound(c, o, base, r.state) {
      LiveTemps(c, o, base, r.state);
    }
  }

  lemma ClosedStillFiles(disk: Disk, streams: map<Path, Stream>, key: Path, stream: Stream)
    requires TempsAreFilesOrGone(disk, streams) && key in streams && stream.temp == streams[key].temp
    ensures TempsAreFilesOrGone(disk, streams[key := stream])
  {
  }
}
