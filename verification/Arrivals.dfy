/** Which files of an offer arrive: exactly those whose source was as approved and for which
    no answer of the receiving system went wrong. */
module Arrivals {
  import opened Names
  import opened Manifest
  import opened Validation
  import opened Destinations
  import opened Disk
  import opened Staging
  import opened Receiver
  import opened Outcomes
  import opened Publication
  import opened Sessions
  import opened Transfer
  import opened Summaries
  import opened Deliveries

  // ---- what spoils a file ----

  /** A chunk that starts a stream without a temporary file, or that is not written whole. */
  predicate SpoilsChunk(c: Config, r: State, key: Path, payload: seq<Byte>, e: Env) {
    || (key !in r.streams && !(e.stagingUsable && e.tempName.Some? && TempPath(c, e.tempName.value) !in r.disk))
    || (payload != [] && (e.write.failed || e.write.accepted != |payload|))
  }

  /** A completed file that cannot be flushed, closed, published or given its attributes. */
  predicate SpoilsEnd(e: Env) { !(e.syncOk && e.closeOk && e.publishOk && e.metadataOk) }

  /** A source that has changed, or of which something else was read than was approved. */
  predicate SpoilsSource(c: Config, entry: Entry, bytes: seq<Byte>, changed: bool) {
    changed || !SameDigest(c.hash(bytes), entry.digest)
  }

  // ---- what single frames do to the streams ----

  /** Nothing happens to other files. */
  ghost predicate OthersStay(r: State, r': State, key: Path, final: Path) {
    && (forall k | k != key :: (k in r.streams <==> k in r'.streams) && (k in r.outcomes <==> k in r'.outcomes))
    && (forall k | k != key && k in r.streams :: r'.streams[k] == r.streams[k])
    && (forall p | p != final :: p in r.published <==> p in r'.published)
    && (forall p | p != final && p in r.published :: r'.published[p] == r.published[p])
  }

  ghost predicate Poor(r: State, key: Path) { key in r.streams && r.streams[key].writeFailure }

  lemma StartIsPoor(c: Config, r: State, key: Path, i: nat, e: Env)
    requires key !in r.streams && (StagingPath(c.fold) in r.disk ==> r.disk[StagingPath(c.fold)] == Folder)
    ensures var r' := StartStream(c, r, key, i, e);
            && key in r'.streams && r'.streams[key].data == []
            && (r'.streams[key].writeFailure <==> !(e.stagingUsable && e.tempName.Some? && TempPath(c, e.tempName.value) !in r.disk))
            && (!r'.streams[key].writeFailure ==> r'.streams[key].temp.Some? && r'.streams[key].temp.value in r'.disk
                                                  && r'.disk[r'.streams[key].temp.value].File?)
            && !r'.streams[key].destinationFailed
            && r' == r.(disk := r'.disk, streams := r.streams[key := r'.streams[key]])
  {
  }

  lemma WriteIsPoor(r: State, key: Path, bytes: seq<Byte>, w: Written)
    requires key in r.streams
    requires var stream := r.streams[key];
             && (stream.destinationFailed ==> stream.writeFailure)
             && (!stream.writeFailure ==> stream.temp.Some? && stream.temp.value in r.disk && r.disk[stream.temp.value].File?)
    ensures var r' := WriteChunk(r, key, bytes, w);
            && r' == r.(disk := r'.disk, streams := r.streams[key := r'.streams[key]])
            && (r'.streams[key].writeFailure <==> r.streams[key].writeFailure || (bytes != [] && (w.failed || w.accepted != |bytes|)))
  {
  }

  lemma StreamIsKept(c: Config, o: Offer, base: Disk, r: State, key: Path)
    requires DiskInv(c, o, base, r) && Books(c, o, r) && key in r.streams
    ensures var stream := r.streams[key];
            && (stream.destinationFailed ==> stream.writeFailure)
            && (!stream.writeFailure ==> stream.temp.Some? && stream.temp.value in r.disk && r.disk[stream.temp.value].File?)
    ensures StagingPath(c.fold) in r.disk ==> r.disk[StagingPath(c.fold)] == Folder
  {
    hide Outside, TempsDistinct, FileKeys;
    assert StreamBook(c, o, r, key, r.streams[key]);
    assert TempKept(c, r.disk, r.streams[key]);
  }

  lemma StagingIsFolder(c: Config, o: Offer, base: Disk, r: State)
    requires DiskInv(c, o, base, r)
    ensures StagingPath(c.fold) in r.disk ==> r.disk[StagingPath(c.fold)] == Folder
  {
    hide Outside, TempsDistinct, TempKept;
  }

  /** A chunk makes its stream poor, or leaves it as it was; nothing else changes. */
  lemma ChunkMayBePoor(c: Config, o: Offer, base: Disk, r: State, j: nat, m: Message, e: Env)
    requires UniqueKeys(c.fold, o.entries) && DiskInv(c, o, base, r) && Books(c, o, r) && r.live && r.accepted && j < |Jobs(o)|
    requires var key := Key(c.fold, FileOf(o, j).path);
             && key !in r.outcomes && IsNextChunk(o, FileOf(o, j), m, Received(r, key))
             && |Received(r, key)| + |m.payload| <= FileOf(o, j).size
    ensures var key := Key(c.fold, FileOf(o, j).path);
            var r' := Step(c, o, r, m, e).state;
            && key in r'.streams && (Poor(r', key) <==> Poor(r, key) || SpoilsChunk(c, r, key, m.payload, e))
            && r'.outcomes == r.outcomes && r'.published == r.published && r'.failed == r.failed && r'.completed == r.completed
            && (forall final :: OthersStay(r, r', key, final))
  {
    hide UniqueKeys, DiskInv, Books, StartStream, WriteChunk, RemoveIncomingFiles;
    FoundFile(c, o, j);
    var key := Key(c.fold, FileOf(o, j).path);
    assert m.payload[..m.size] == m.payload;
    var current := r;
    StagingIsFolder(c, o, base, r);
    if key !in r.streams {
      StartIsPoor(c, r, key, Jobs(o)[j], e);
      current := StartStream(c, r, key, Jobs(o)[j], e);
    } else {
      StreamIsKept(c, o, base, r, key);
    }
    WriteIsPoor(current, key, m.payload, e.write);
    assert Step(c, o, r, m, e) == Proceed(WriteChunk(current, key, m.payload, e.write));
  }

  // ---- terminal frames ----

  /** `before` is the state before the stream of the failing file was closed or taken. */
  lemma FailureStaysOut(c: Config, before: State, r: State, path: Path, e: Env, final: Path)
    requires e.sendOk && OthersStay(before, r, Key(c.fold, path), final) && r.published == before.published && r.failed == before.failed
    ensures var q, key := FailFile(c, r, path, e), Key(c.fold, path);
            && q.replies == [FileResult(path, false)] && key in q.state.outcomes
            && q.state.published == before.published && q.state.failed == before.failed + 1
            && OthersStay(before, q.state, key, final)
  {
    hide RemoveStaging, Remove;
  }

  lemma OthersStayTwice(r: State, r': State, r'': State, key: Path, final: Path)
    requires OthersStay(r, r', key, final) && OthersStay(r', r'', key, final)
    ensures OthersStay(r, r'', key, final)
  {
  }

  /** The place of a file without an outcome is free. */
  lemma PlaceIsFree(c: Config, o: Offer, listed: set<string>, base: Disk, r: State, i: nat)
    requires Setting(c, o, listed, base) && DiskInv(c, o, base, r) && i < |o.entries| && o.entries[i].kind == FileKind
    requires At(c.fold, o, i) !in r.published
    ensures At(c.fold, o, i) !in r.disk
  {
    hide At, IsTree, ParentsFirst, FilesVerified, BaseKept, Inside;
    var final := At(c.fold, o, i);
    DestinationsAvoidStaging(c, o, listed, base, i);
    if final in Elements(r.created) {
      assert final in FolderDestinations(c.fold, o);
      var f: nat :| f < |o.entries| && IsFolderEntry(o, f) && At(c.fold, o, f) == final;
      AtIsInjective(c.fold, listed, o, f, i);
    }
  }

  /** A completion is a success exactly when its stream is rich, its source is as approved
      and nothing goes wrong now. */
  lemma CompletionSucceedsIff(
      c: Config, o: Offer, listed: set<string>, base: Disk, r: State, j: nat, m: Message, bytes: seq<Byte>, e: Env)
    requires YieldsDigests(c) && Setting(c, o, listed, base) && DiskInv(c, o, base, r) && Books(c, o, r)
    requires r.live && r.accepted && Benign(e) && j < |Jobs(o)| && m.Complete? && IsTerminal(c, o, FileOf(o, j), m, bytes)
    requires var key := Key(c.fold, FileOf(o, j).path);
             key !in r.outcomes && key in r.streams && r.streams[key].data == bytes
    requires At(c.fold, o, Jobs(o)[j]) !in r.published
    ensures var key, final := Key(c.fold, FileOf(o, j).path), At(c.fold, o, Jobs(o)[j]);
            var q := Step(c, o, r, m, e);
            var success := !Poor(r, key) && SameDigest(m.digest, FileOf(o, j).digest) && m.success != Some(false) && !SpoilsEnd(e);
            && q.replies == [FileResult(FileOf(o, j).path, success)] && key in q.state.outcomes
            && (final in q.state.published <==> success) && (success ==> q.state.published[final] == Jobs(o)[j])
            && q.state.failed == r.failed + (if success then 0 else 1)
            && OthersStay(r, q.state, key, final)
  {
    hide Setting, DiskInv, At, FailFile, FinishFile, UniqueKeys, Books, IsLowerHexDigest;
    SettingIsUnique(c, o, listed, base);
    FoundFile(c, o, j);
    var entry, i, final := FileOf(o, j), Jobs(o)[j], At(c.fold, o, Jobs(o)[j]);
    var key := Key(c.fold, entry.path);
    var stream := r.streams[key];
    StreamIsKept(c, o, base, r, key);
    DigestsAreLong(c, stream.data);
    var closed := stream.(writeFailure := stream.writeFailure || (stream.temp.Some? && !(e.syncOk && e.closeOk)));
    var r' := r.(streams := r.streams[key := closed]);
    ClosedKeepsDisk(c, o, listed, base, r, key, closed);
    if closed.writeFailure || !Verified(c, entry, closed, m) {
      FailureStaysOut(c, r, r', entry.path, e, final);
    } else {
      FinishSucceedsIff(c, o, listed, base, r', key, i, e);
      OthersStayTwice(r, r', FinishFile(c, o, r', key, i, e).state, key, final);
    }
  }

  lemma DigestsAreLong(c: Config, bytes: seq<Byte>)
    requires YieldsDigests(c)
    ensures |c.hash(bytes)| == 64 && EqualFold(c.hash(bytes), c.hash(bytes))
  {
  }

  lemma FinishSucceedsIff(c: Config, o: Offer, listed: set<string>, base: Disk, r: State, key: Path, i: nat, e: Env)
    requires Setting(c, o, listed, base) && DiskInv(c, o, base, r) && Benign(e)
    requires i < |o.entries| && o.entries[i].kind == FileKind && key in r.streams && key == Key(c.fold, o.entries[i].path)
    requires r.streams[key].temp.Some? && r.streams[key].temp.value in r.disk && At(c.fold, o, i) !in r.published
    ensures var q, final := FinishFile(c, o, r, key, i, e), At(c.fold, o, i);
            var success := e.publishOk && e.metadataOk;
            && q.replies == [FileResult(o.entries[i].path, success)] && key in q.state.outcomes
            && (final in q.state.published <==> success) && (success ==> q.state.published[final] == i)
            && q.state.failed == r.failed + (if success then 0 else 1)
            && OthersStay(r, q.state, key, final)
  {
    hide Setting, DiskInv, At, FailFile, MakeParents, Remove;
    var path, final := o.entries[i].path, At(c.fold, o, i);
    ParentsAreThere(c, o, listed, base, r, i);
    PlaceIsFree(c, o, listed, base, r, i);
    assert r.(disk := r.disk) == r;
    if !e.publishOk {
      FailureStaysOut(c, r, r, path, e, final);
    } else if !e.metadataOk {
      var moved := Publish(r, key, final, i);
      FailureStaysOut(c, r, r.(disk := Remove(moved.disk, final), streams := moved.streams), path, e, final);
    }
  }

  // ---- runs, with the files spoiled so far ----

  /** The files, by their place among the jobs, that a step spoils. */
  function Spoils(c: Config, o: Offer, s: System, a: Action): set<nat> {
    if !Enabled(o, s, a) then {}
    else
      match a
      case SendComplete(w, changed) =>
        var j := s.workers[w].value;
        if SpoilsSource(c, FileOf(o, j), s.progress[j].bytes, changed) then {j} else {}
      case SendFailure(w, _) => {s.workers[w].value}
      case Deliver(e) => set j: nat | j < |Jobs(o)| && SpoiledByFrame(c, o, s.receiver, s.wire[0], e, j)
      case _ => {}
  }

  predicate SpoiledByFrame(c: Config, o: Offer, r: State, m: Message, e: Env, j: nat)
    requires j < |Jobs(o)|
  {
    && PathOf(m) == Some(FileOf(o, j).path)
    && (m.Content? ==> SpoilsChunk(c, r, Key(c.fold, FileOf(o, j).path), m.payload, e)) && (m.Complete? ==> SpoilsEnd(e)) && !m.FileFailed?
  }

  /** And those that a run spoils. */
  function Spoiled(c: Config, o: Offer, s: System, actions: seq<Action>): set<nat>
    decreases |actions|
  {
    if actions == [] then {} else Spoils(c, o, s, actions[0]) + Spoiled(c, o, Next(c, o, s, actions[0]), actions[1..])
  }

  predicate BadEnd(entry: Entry, frames: seq<Message>) {
    && frames != []
    && var last := frames[|frames| - 1];
       last.FileFailed? || (last.Complete? && (last.success == Some(false) || !SameDigest(last.digest, entry.digest)))
  }

  ghost predicate FileTold(c: Config, o: Offer, j: nat, p: Progress, frames: seq<Message>, r: State, spoiled: bool)
    requires j < |Jobs(o)|
  {
    var key, final := Key(c.fold, FileOf(o, j).path), At(c.fold, o, Jobs(o)[j]);
    && (p.Queued? ==> !spoiled)
    && (key !in r.outcomes ==> (spoiled <==> Poor(r, key) || BadEnd(FileOf(o, j), frames)) && final !in r.published)
    && (key in r.outcomes ==> (spoiled <==> final !in r.published))
    && (final in r.published ==> r.published[final] == Jobs(o)[j])
  }

  ghost predicate Told(c: Config, o: Offer, s: System, spoiled: set<nat>) {
    && |s.progress| == |Jobs(o)|
    && (forall j | j in spoiled :: j < |Jobs(o)|)
    && forall j: nat | j < |Jobs(o)| :: FileTold(c, o, j, s.progress[j], Frames(s.wire, FileOf(o, j).path), s.receiver, j in spoiled)
  }

  // ---- the sender's steps ----

  lemma {:induction false} ChunksAreNoEnd(o: Offer, entry: Entry, frames: seq<Message>, have: seq<Byte>, all: seq<Byte>)
    requires Carries(o, entry, frames, have, all)
    ensures !BadEnd(entry, frames)
  {
    if frames != [] {
      ChunksAreNoEnd(o, entry, frames[1..], have + frames[0].payload, all);
      assert |frames| > 1 ==> frames[1..][|frames| - 2] == frames[|frames| - 1];
    }
  }

  lemma SenderKeepsTold(c: Config, o: Offer, s: System, s': System, spoiled: set<nat>, spoiled': set<nat>, j: nat, sent: seq<Message>)
    requires UniqueKeys(c.fold, o.entries) && Told(c, o, s, spoiled) && j < |Jobs(o)| && |s'.progress| == |s.progress|
    requires |sent| <= 1 && (sent != [] ==> PathOf(sent[0]) == Some(FileOf(o, j).path))
    requires s'.receiver == s.receiver && s'.progress == s.progress[j := s'.progress[j]] && s'.wire == s.wire + sent
    requires spoiled' == spoiled || spoiled' == spoiled + {j}
    requires FileTold(c, o, j, s'.progress[j], Frames(s.wire, FileOf(o, j).path) + sent, s.receiver, j in spoiled')
    ensures Told(c, o, s', spoiled')
  {
    hide FileTold, UniqueKeys;
    forall k: nat | k < |Jobs(o)|
      ensures FileTold(c, o, k, s'.progress[k], Frames(s'.wire, FileOf(o, k).path), s'.receiver, k in spoiled')
    {
      var path := FileOf(o, k).path;
      if sent == [] {
        assert s'.wire == s.wire;
        assert Frames(s.wire, path) + sent == Frames(s.wire, path);
      } else {
        assert sent == [sent[0]];
        FramesAppend(s.wire, sent[0], path);
        if k != j {
          FilesDiffer(c, o, j, k);
          assert Frames(s.wire, path) + [] == Frames(s.wire, path);
        }
      }
    }
  }

  lemma StartKeepsTold(c: Config, o: Offer, s: System, w: nat, spoiled: set<nat>)
    requires UniqueKeys(c.fold, o.entries) && AllFiles(c, o, s) && WorkerBook(s) && Told(c, o, s, spoiled) && Enabled(o, s, TakeJob(w))
    ensures Told(c, o, Next(c, o, s, TakeJob(w)), spoiled)
  {
    hide UniqueKeys, Carries;
    var j := s.next;
    assert s.wire + [] == s.wire;
    assert Frames(s.wire, FileOf(o, j).path) + [] == Frames(s.wire, FileOf(o, j).path);
    SenderKeepsTold(c, o, s, Next(c, o, s, TakeJob(w)), spoiled, spoiled, j, []);
  }

  lemma SentKeepsTold(c: Config, o: Offer, s: System, a: Action, spoiled: set<nat>)
    requires UniqueKeys(c.fold, o.entries) && AllFiles(c, o, s) && Told(c, o, s, spoiled) && Enabled(o, s, a)
    requires a.SendChunk? || a.SendComplete? || a.SendFailure?
    ensures Told(c, o, Next(c, o, s, a), spoiled + Spoils(c, o, s, a))
  {
    hide UniqueKeys, Carries, Frames, SameDigest;
    var j := s.workers[a.w].value;
    var entry, p := FileOf(o, j), s.progress[j];
    var frames := Frames(s.wire, entry.path);
    assert FileState(c, o, entry, p, frames, s.receiver);
    ChunksAreNoEnd(o, entry, frames, Received(s.receiver, Key(c.fold, entry.path)), p.bytes);
    var s' := Next(c, o, s, a);
    var m := s'.wire[|s.wire|];
    assert (frames + [m])[|frames|] == m;
    if a.SendComplete? {
      CompletionIsBadIff(c, o, entry, p.bytes, a.changed);
    }
    assert spoiled + {} == spoiled;
    SenderKeepsTold(c, o, s, s', spoiled, spoiled + Spoils(c, o, s, a), j, [m]);
  }

  lemma CompletionIsBadIff(c: Config, o: Offer, entry: Entry, bytes: seq<Byte>, changed: bool)
    ensures var m := Completion(c, o, entry, bytes, changed);
            m.Complete? && (m.success == Some(false) || !SameDigest(m.digest, entry.digest) <==> SpoilsSource(c, entry, bytes, changed))
  {
    hide SameDigest;
  }

  // ---- the receiver's steps ----

  lemma ChunkKeepsTold(c: Config, o: Offer, base: Disk, s: System, j: nat, e: Env, spoiled: bool)
    requires UniqueKeys(c.fold, o.entries) && DiskInv(c, o, base, s.receiver) && Books(c, o, s.receiver)
    requires s.receiver.live && s.receiver.accepted && j < |Jobs(o)| == |s.progress|
    requires s.wire != [] && PathOf(s.wire[0]) == Some(FileOf(o, j).path) && s.wire[0].Content?
    requires var frames := Frames(s.wire, FileOf(o, j).path);
             && FileState(c, o, FileOf(o, j), s.progress[j], frames, s.receiver)
             && FileTold(c, o, j, s.progress[j], frames, s.receiver, spoiled)
    ensures var r' := Step(c, o, s.receiver, s.wire[0], e).state;
            && FileTold(c, o, j, s.progress[j], Frames(s.wire[1..], FileOf(o, j).path), r', spoiled || SpoiledByFrame(c, o, s.receiver, s.wire[0], e, j))
            && forall final :: OthersStay(s.receiver, r', Key(c.fold, FileOf(o, j).path), final)
  {
    hide UniqueKeys, DiskInv, Books, Step, OthersStay, Carries, IsNextChunk, SpoilsChunk, At, SameDigest;
    var entry, m, p := FileOf(o, j), s.wire[0], s.progress[j];
    var frames, rest := Frames(s.wire, entry.path), Frames(s.wire[1..], entry.path);
    assert frames == [m] + rest;
    assert rest != [] ==> frames[|frames| - 1] == rest[|rest| - 1];
    HeadChunkFits(c, o, entry, p, frames, s.receiver);
    ChunkMayBePoor(c, o, base, s.receiver, j, m, e);
  }

  lemma TerminalStandsAlone(c: Config, o: Offer, entry: Entry, p: Progress, wire: seq<Message>, r: State)
    requires wire != [] && PathOf(wire[0]) == Some(entry.path) && !wire[0].Content?
    requires FileState(c, o, entry, p, Frames(wire, entry.path), r)
    ensures p.Terminated? && Frames(wire, entry.path) == [wire[0]] && Frames(wire[1..], entry.path) == []
    ensures IsTerminal(c, o, entry, wire[0], p.bytes) && Key(c.fold, entry.path) !in r.outcomes
    ensures Received(r, Key(c.fold, entry.path)) == p.bytes && (wire[0].Complete? ==> Key(c.fold, entry.path) in r.streams)
  {
    var frames, rest := Frames(wire, entry.path), Frames(wire[1..], entry.path);
    assert frames == [wire[0]] + rest && frames[0] == wire[0];
    var chunks := frames[..|frames| - 1];
    assert frames == [wire[0]] && rest == [];
  }

  lemma TerminalKeepsTold(c: Config, o: Offer, listed: set<string>, base: Disk, s: System, j: nat, e: Env, spoiled: bool)
    requires YieldsDigests(c) && Setting(c, o, listed, base) && DiskInv(c, o, base, s.receiver) && Books(c, o, s.receiver)
    requires s.receiver.live && s.receiver.accepted && Benign(e) && j < |Jobs(o)| == |s.progress|
    requires s.wire != [] && PathOf(s.wire[0]) == Some(FileOf(o, j).path) && !s.wire[0].Content?
    requires var frames := Frames(s.wire, FileOf(o, j).path);
             && FileState(c, o, FileOf(o, j), s.progress[j], frames, s.receiver)
             && FileTold(c, o, j, s.progress[j], frames, s.receiver, spoiled)
    ensures var r' := Step(c, o, s.receiver, s.wire[0], e).state;
            && FileTold(c, o, j, s.progress[j], Frames(s.wire[1..], FileOf(o, j).path), r', spoiled || SpoiledByFrame(c, o, s.receiver, s.wire[0], e, j))
            && OthersStay(s.receiver, r', Key(c.fold, FileOf(o, j).path), At(c.fold, o, Jobs(o)[j]))
  {
    hide Setting, DiskInv, Books, Step, OthersStay, Carries, IsTerminal, At, SameDigest, FileState, YieldsDigests;
    var entry, m, p := FileOf(o, j), s.wire[0], s.progress[j];
    TerminalStandsAlone(c, o, entry, p, s.wire, s.receiver);
    if m.Complete? {
      CompletionSucceedsIff(c, o, listed, base, s.receiver, j, m, p.bytes, e);
    } else {
      assert m.FileFailed? by {
        TerminalKinds(c, o, entry, m, p.bytes);
      }
      FailedFrameStaysOut(c, o, listed, base, s.receiver, j, m, p.bytes, e);
    }
  }

  lemma TerminalKinds(c: Config, o: Offer, entry: Entry, m: Message, bytes: seq<Byte>)
    requires IsTerminal(c, o, entry, m, bytes)
    ensures m.FileFailed? || m.Complete?
  {
  }

  lemma FailedFrameStaysOut(c: Config, o: Offer, listed: set<string>, base: Disk, r: State, j: nat, m: Message, bytes: seq<Byte>, e: Env)
    requires Setting(c, o, listed, base) && r.live && r.accepted && Benign(e)
    requires j < |Jobs(o)| && m.FileFailed? && IsTerminal(c, o, FileOf(o, j), m, bytes) && Key(c.fold, FileOf(o, j).path) !in r.outcomes
    ensures var key, q := Key(c.fold, FileOf(o, j).path), Step(c, o, r, m, e);
            && key in q.state.outcomes && q.state.published == r.published
            && OthersStay(r, q.state, key, At(c.fold, o, Jobs(o)[j]))
  {
    hide Setting, FailFile, At;
    SettingIsUnique(c, o, listed, base);
    FoundFile(c, o, j);
    PathsNonEmpty(c, o, listed, base, Jobs(o)[j]);
    FailureStaysOut(c, r, r, FileOf(o, j).path, e, At(c.fold, o, Jobs(o)[j]));
  }

  lemma PlacesDiffer(c: Config, o: Offer, listed: set<string>, base: Disk, j: nat, k: nat)
    requires Setting(c, o, listed, base) && j < |Jobs(o)| && k < |Jobs(o)| && j != k
    ensures At(c.fold, o, Jobs(o)[j]) != At(c.fold, o, Jobs(o)[k])
  {
    hide At, Approved, IsTree;
    AtIsInjective(c.fold, listed, o, Jobs(o)[j], Jobs(o)[k]);
  }

  lemma OtherFilesToldTheSame(c: Config, o: Offer, listed: set<string>, base: Disk, s: System, j: nat, k: nat, r': State, spoiled: bool)
    requires Setting(c, o, listed, base) && j < |Jobs(o)| == |s.progress| && k < |Jobs(o)| && j != k
    requires s.wire != [] && PathOf(s.wire[0]) == Some(FileOf(o, j).path)
    requires OthersStay(s.receiver, r', Key(c.fold, FileOf(o, j).path), At(c.fold, o, Jobs(o)[j]))
    requires FileTold(c, o, k, s.progress[k], Frames(s.wire, FileOf(o, k).path), s.receiver, spoiled)
    ensures FileTold(c, o, k, s.progress[k], Frames(s.wire[1..], FileOf(o, k).path), r', spoiled)
  {
    hide Setting, At, SameDigest;
    SettingIsUnique(c, o, listed, base);
    FilesDiffer(c, o, j, k);
    PlacesDiffer(c, o, listed, base, j, k);
    assert Frames(s.wire, FileOf(o, k).path) == Frames(s.wire[1..], FileOf(o, k).path);
  }

  lemma HeadKeepsTold(c: Config, o: Offer, listed: set<string>, base: Disk, s: System, j: nat, e: Env, spoiled: bool)
    requires YieldsDigests(c) && Setting(c, o, listed, base) && Inv(c, o, base, s) && !s.batchSent && Benign(e)
    requires j < |Jobs(o)| == |s.progress| && s.wire != [] && PathOf(s.wire[0]) == Some(FileOf(o, j).path)
    requires FileTold(c, o, j, s.progress[j], Frames(s.wire, FileOf(o, j).path), s.receiver, spoiled)
    ensures var r' := Step(c, o, s.receiver, s.wire[0], e).state;
            && FileTold(c, o, j, s.progress[j], Frames(s.wire[1..], FileOf(o, j).path), r', spoiled || SpoiledByFrame(c, o, s.receiver, s.wire[0], e, j))
            && OthersStay(s.receiver, r', Key(c.fold, FileOf(o, j).path), At(c.fold, o, Jobs(o)[j]))
  {
    hide YieldsDigests, Setting, DiskInv, Books, Step, FileState, FileTold, OthersStay, WorkerBook, Counted, Finished, SpoiledByFrame, UniqueKeys, At, WireShape;
    SettingIsUnique(c, o, listed, base);
    LiveBeforeBatch(o, s);
    if s.wire[0].Content? {
      ChunkKeepsTold(c, o, base, s, j, e, spoiled);
    } else {
      TerminalKeepsTold(c, o, listed, base, s, j, e, spoiled);
    }
  }

  lemma FrameKeepsTold(c: Config, o: Offer, listed: set<string>, base: Disk, s: System, e: Env, spoiled: set<nat>)
    requires YieldsDigests(c) && Setting(c, o, listed, base) && Inv(c, o, base, s) && Told(c, o, s, spoiled)
    requires !s.batchSent && Enabled(o, s, Deliver(e))
    ensures Told(c, o, Next(c, o, s, Deliver(e)), spoiled + Spoils(c, o, s, Deliver(e)))
  {
    hide YieldsDigests, Setting, AllFiles, ReceiverSound, Step, FileTold, OthersStay, WorkerBook, Counted, SpoiledByFrame, UniqueKeys, At, Frames;
    SettingIsUnique(c, o, listed, base);
    ShorterWire(o, s.wire);
    var j: nat :| j < |Jobs(o)| && PathOf(s.wire[0]) == Some(FileOf(o, j).path);
    var r' := Step(c, o, s.receiver, s.wire[0], e).state;
    HeadKeepsTold(c, o, listed, base, s, j, e, j in spoiled);
    var spoiled' := spoiled + Spoils(c, o, s, Deliver(e));
    forall k: nat | k < |Jobs(o)|
      ensures FileTold(c, o, k, s.progress[k], Frames(s.wire[1..], FileOf(o, k).path), r', k in spoiled')
    {
      if k != j {
        FilesDiffer(c, o, j, k);
        OtherFrameSpoilsNothing(c, o, s.receiver, s.wire[0], e, j, k);
        OtherFilesToldTheSame(c, o, listed, base, s, j, k, r', k in spoiled);
      }
    }
  }

  lemma OtherFrameSpoilsNothing(c: Config, o: Offer, r: State, m: Message, e: Env, j: nat, k: nat)
    requires j < |Jobs(o)| && k < |Jobs(o)| && PathOf(m) == Some(FileOf(o, j).path) && FileOf(o, j).path != FileOf(o, k).path
    ensures !SpoiledByFrame(c, o, r, m, e, k)
  {
  }

  lemma BatchKeepsTold(c: Config, o: Offer, base: Disk, s: System, a: Action, spoiled: set<nat>)
    requires Inv(c, o, base, s) && Told(c, o, s, spoiled) && Enabled(o, s, a)
    requires a.TakeResult? || a.SendBatch? || (a.Deliver? && s.batchSent)
    ensures Told(c, o, Next(c, o, s, a), spoiled + Spoils(c, o, s, a))
  {
    hide AllFiles, WorkerBook, ReceiverSound, FileTold, RemoveStaging;
    assert spoiled + {} == spoiled;
    var s' := Next(c, o, s, a);
    assert a.Deliver? ==> s.wire[0] == BatchComplete(o.id);
    forall k: nat | k < |Jobs(o)|
      ensures FileTold(c, o, k, s'.progress[k], Frames(s'.wire, FileOf(o, k).path), s'.receiver, k in spoiled)
    {
      if a.SendBatch? {
        FramesAppend(s.wire, BatchComplete(o.id), FileOf(o, k).path);
        assert Frames(s.wire, FileOf(o, k).path) + [] == Frames(s.wire, FileOf(o, k).path);
      } else if a.Deliver? {
        BatchTellsNothing(c, o, s, a.e, k, k in spoiled);
      }
    }
  }

  lemma BatchTellsNothing(c: Config, o: Offer, s: System, e: Env, k: nat, spoiled: bool)
    requires s.wire != [] && s.wire[0] == BatchComplete(o.id) && k < |Jobs(o)| == |s.progress|
    requires FileTold(c, o, k, s.progress[k], Frames(s.wire, FileOf(o, k).path), s.receiver, spoiled)
    ensures FileTold(c, o, k, s.progress[k], Frames(s.wire[1..], FileOf(o, k).path), Step(c, o, s.receiver, s.wire[0], e).state, spoiled)
  {
    hide RemoveStaging, At, SameDigest;
    assert Frames(s.wire, FileOf(o, k).path) == Frames(s.wire[1..], FileOf(o, k).path);
  }

  lemma NextKeepsTold(c: Config, o: Offer, listed: set<string>, base: Disk, s: System, a: Action, spoiled: set<nat>)
    requires YieldsDigests(c) && Setting(c, o, listed, base) && Inv(c, o, base, s) && Told(c, o, s, spoiled)
    ensures Told(c, o, Next(c, o, s, a), spoiled + Spoils(c, o, s, a))
  {
    hide YieldsDigests, Setting, AllFiles, WorkerBook, ReceiverSound, Told, UniqueKeys, Next, WireShape, Counted;
    SettingIsUnique(c, o, listed, base);
    assert spoiled + {} == spoiled;
    if !Enabled(o, s, a) {
      Stutters(c, o, s, a);
    } else {
      match a
      case TakeJob(w) => StartKeepsTold(c, o, s, w, spoiled);
      case SendChunk(_, _) => SentKeepsTold(c, o, s, a, spoiled);
      case SendComplete(_, _) => SentKeepsTold(c, o, s, a, spoiled);
      case SendFailure(_, _) => SentKeepsTold(c, o, s, a, spoiled);
      case Deliver(e) =>
        if s.batchSent {
          BatchKeepsTold(c, o, base, s, a, spoiled);
        } else {
          FrameKeepsTold(c, o, listed, base, s, e, spoiled);
        }
      case _ => BatchKeepsTold(c, o, base, s, a, spoiled);
    }
  }

  lemma {:induction false} RunKeepsTold(c: Config, o: Offer, listed: set<string>, base: Disk, s: System, actions: seq<Action>, spoiled: set<nat>)
    requires YieldsDigests(c) && Setting(c, o, listed, base) && Inv(c, o, base, s) && Told(c, o, s, spoiled)
    ensures Told(c, o, After(c, o, s, actions), spoiled + Spoiled(c, o, s, actions))
    decreases |actions|
  {
    hide YieldsDigests, Setting, Inv, Told, Next, Spoils;
    if actions == [] {
      assert spoiled + {} == spoiled;
    } else {
      var s', more := Next(c, o, s, actions[0]), Spoils(c, o, s, actions[0]);
      NextKeepsInv(c, o, listed, base, s, actions[0]);
      NextKeepsTold(c, o, listed, base, s, actions[0], spoiled);
      RunKeepsTold(c, o, listed, base, s', actions[1..], spoiled + more);
      assert (spoiled + more) + Spoiled(c, o, s', actions[1..]) == spoiled + (more + Spoiled(c, o, s', actions[1..]));
    }
  }

  lemma StartIsTold(c: Config, o: Offer, r: State, workers: nat)
    requires r == Accepted(r.disk, r.created)
    ensures Told(c, o, Start(o, workers, r), {})
  {
    hide At;
  }

  // ---- the main results ----

  function Below(n: nat): (s: set<nat>)
    ensures |s| == n && forall j: nat :: j in s <==> j < n
  {
    if n == 0 then {} else Below(n - 1) + {n - 1}
  }

  /** As many places are used as there are good files. */
  lemma PlacesAreCounted(n: nat, spoiled: set<nat>, places: map<nat, Path>, published: set<Path>)
    requires (forall j | j in spoiled :: j < n) && places.Keys == Below(n) - spoiled
    requires forall j, k | j in places && k in places && j != k :: places[j] != places[k]
    requires forall p :: p in published <==> p in places.Values
    ensures |published| + |spoiled| == n
  {
    InjectiveImage(places);
    assert places.Values == published;
    assert |places| == |places.Keys|;
    assert |Below(n)| == |Below(n) - spoiled| + |spoiled|;
  }

  lemma ToldAtEnd(c: Config, o: Offer, s: System, spoiled: set<nat>, j: nat)
    requires Told(c, o, s, spoiled) && j < |Jobs(o)| && s.receiver.outcomes == FileKeys(c, o)
    ensures At(c.fold, o, Jobs(o)[j]) in s.receiver.published <==> j !in spoiled
  {
    hide At, Frames, BadEnd, Poor;
    FileHasKey(c, o, Jobs(o)[j]);
    assert FileTold(c, o, j, s.progress[j], Frames(s.wire, FileOf(o, j).path), s.receiver, j in spoiled);
  }

  lemma PublishedIsJob(c: Config, o: Offer, base: Disk, s: System, p: Path) returns (j: nat)
    requires Finished(c, o, base, s.receiver) && p in s.receiver.published
    ensures j < |Jobs(o)| && p == At(c.fold, o, Jobs(o)[j])
  {
    hide At, VerifiedFile, FileKeys, FolderDestinations;
    var i := s.receiver.published[p];
    VerifiedIsManifestFile(c, o, i, s.receiver.disk[p]);
    assert i in Jobs(o);
    j :| j < |Jobs(o)| && Jobs(o)[j] == i;
  }

  /** The files published are those not spoiled, one place each. */
  lemma PublishedAreCounted(c: Config, o: Offer, listed: set<string>, base: Disk, s: System, spoiled: set<nat>)
    requires Setting(c, o, listed, base) && Told(c, o, s, spoiled) && Finished(c, o, base, s.receiver)
    ensures s.receiver.completed + |spoiled| == FileCount(o)
  {
    hide Setting, At, FilesVerified, FileTold, FileKeys, FolderDestinations, Jobs, PublishedDisk;
    var published := s.receiver.published;
    var places := map j | j in Below(|Jobs(o)|) - spoiled :: At(c.fold, o, Jobs(o)[j]);
    forall j, k | j in places && k in places && j != k ensures places[j] != places[k] {
      PlacesDiffer(c, o, listed, base, j, k);
    }
    forall p ensures p in published <==> p in places.Values {
      if p in published {
        var j := PublishedIsJob(c, o, base, s, p);
        ToldAtEnd(c, o, s, spoiled, j);
        assert j in places && places[j] == p;
      }
      if p in places.Values {
        var j :| j in places && places[j] == p;
        ToldAtEnd(c, o, s, spoiled, j);
      }
    }
    PlacesAreCounted(|Jobs(o)|, spoiled, places, published.Keys);
    assert |published| == |published.Keys|;
    JobsAreCounted(o);
  }

  lemma JobsAreCounted(o: Offer)
    ensures |Jobs(o)| == FileCount(o)
  {
    assert o.entries[..|o.entries|] == o.entries;
  }

  /** Under every schedule: a file with an outcome is at its place exactly when the run has
      not spoiled it, and the two summaries count the rest as failed. */
  lemma ExactlyTheUnspoiledArrive(c: Config, o: Offer, listed: set<string>, base: Disk, r: State, workers: nat, actions: seq<Action>)
    requires Begun(c, o, listed, base, r) && YieldsDigests(c)
    ensures var s, spoiled := After(c, o, Start(o, workers, r), actions), Spoiled(c, o, Start(o, workers, r), actions);
            && (forall j: nat | j < |Jobs(o)| && Key(c.fold, FileOf(o, j).path) in s.receiver.outcomes ::
                  At(c.fold, o, Jobs(o)[j]) in s.receiver.published <==> j !in spoiled)
            && (s.verdict.Some? ==>
                  && s.failed == |spoiled| && s.succeeded == FileCount(o) - |spoiled| && s.verdict == Some(spoiled == {})
                  && forall j: nat | j < |Jobs(o)| :: At(c.fold, o, Jobs(o)[j]) in s.receiver.published <==> j !in spoiled)
  {
    hide After, Spoiled, Setting, Inv, FolderDestinations, ParentsFirst, Sound, Books, Finished, At, YieldsDigests, Frames, FileKeys, BadEnd, Poor;
    var start := Start(o, workers, r);
    var s, spoiled := After(c, o, start, actions), Spoiled(c, o, start, actions);
    PreparedIsSound(c, o, listed, base, r.disk, r.created);
    StartHasInv(c, o, listed, base, r, workers);
    StartIsTold(c, o, r, workers);
    RunKeepsTold(c, o, listed, base, start, actions, {});
    assert {} + spoiled == spoiled;
    SummariesAgree(c, o, listed, base, r, workers, actions);
    forall j: nat | j < |Jobs(o)|
      ensures Key(c.fold, FileOf(o, j).path) in s.receiver.outcomes ==> (At(c.fold, o, Jobs(o)[j]) in s.receiver.published <==> j !in spoiled)
    {
      assert FileTold(c, o, j, s.progress[j], Frames(s.wire, FileOf(o, j).path), s.receiver, j in spoiled);
    }
    if s.verdict.Some? {
      PublishedAreCounted(c, o, listed, base, s, spoiled);
      assert |spoiled| == 0 <==> spoiled == {};
      forall j: nat | j < |Jobs(o)| ensures Key(c.fold, FileOf(o, j).path) in s.receiver.outcomes {
        FileHasKey(c, o, Jobs(o)[j]);
      }
    }
  }

  /** Sources unchanged and as approved, no failure, and every answer as one would wish. */
  predicate Fine(c: Config, o: Offer, s: System, a: Action) {
    Enabled(o, s, a) ==>
      match a
      case SendComplete(w, changed) => !changed && c.hash(s.progress[s.workers[w].value].bytes) == FileOf(o, s.workers[w].value).digest
      case SendFailure(_, _) => false
      case Deliver(e) =>
        && e.stagingUsable && e.tempName.Some? && TempPath(c, e.tempName.value) !in s.receiver.disk
        && (s.wire[0].Content? ==> e.write == Written(|s.wire[0].payload|, false))
        && e.syncOk && e.closeOk && e.publishOk && e.metadataOk
      case _ => true
  }

  predicate AllFine(c: Config, o: Offer, s: System, actions: seq<Action>)
    decreases |actions|
  {
    actions == [] || (Fine(c, o, s, actions[0]) && AllFine(c, o, Next(c, o, s, actions[0]), actions[1..]))
  }

  lemma {:induction false} FineRunsSpoilNothing(c: Config, o: Offer, s: System, actions: seq<Action>)
    requires AllFine(c, o, s, actions)
    ensures Spoiled(c, o, s, actions) == {}
    decreases |actions|
  {
    hide Next, Jobs;
    if actions != [] {
      FineStepSpoilsNothing(c, o, s, actions[0]);
      FineRunsSpoilNothing(c, o, Next(c, o, s, actions[0]), actions[1..]);
    }
  }

  lemma FineStepSpoilsNothing(c: Config, o: Offer, s: System, a: Action)
    requires Fine(c, o, s, a)
    ensures Spoils(c, o, s, a) == {}
  {
    hide Jobs;
    if a.Deliver? && Enabled(o, s, a) && s.wire[0].FileFailed? {
      assert forall j: nat | j < |Jobs(o)| :: !SpoiledByFrame(c, o, s.receiver, s.wire[0], a.e, j);
    }
  }

  /** A transfer in which nothing goes wrong delivers every file and says so. */
  lemma FineTransfersSucceed(c: Config, o: Offer, listed: set<string>, base: Disk, r: State, workers: nat, actions: seq<Action>)
    requires Begun(c, o, listed, base, r) && YieldsDigests(c) && (Jobs(o) == [] || workers > 0)
    requires AllFine(c, o, Start(o, workers, r), actions)
    ensures var s := After(c, o, Start(o, workers, r), actions);
            (s.verdict.Some? || !CanStep(o, s)) ==> s.verdict == Some(true) && s.succeeded == FileCount(o) && s.failed == 0
  {
    hide After, Spoiled, AllFine, Begun, YieldsDigests, At, Jobs, CanStep;
    FineRunsSpoilNothing(c, o, Start(o, workers, r), actions);
    ExactlyTheUnspoiledArrive(c, o, listed, base, r, workers, actions);
    MaximalRunsEndWithTheVerdict(c, o, listed, base, r, workers, actions);
  }

  // ---- wrong digests ----

  lemma SameDigestTwice(a: string, b: string, d: string)
    requires SameDigest(a, d) && SameDigest(b, d)
    ensures SameDigest(a, b)
  {
  }

  /** Whoever sends it: a completion whose digest, or whose content's digest, is not the
      approved one in more than case publishes nothing and is answered with a failure. */
  lemma WrongDigestsFail(c: Config, o: Offer, r: State, m: Message, e: Env)
    requires m.Complete? && FindFile(o.entries, m.path).Some?
    requires var digest, key := o.entries[FindFile(o.entries, m.path).value].digest, Key(c.fold, m.path);
             !SameDigest(digest, m.digest) || (key in r.streams && !SameDigest(digest, c.hash(r.streams[key].data)))
    ensures var q := Step(c, o, r, m, e);
            && q.state.published == r.published && q.state.completed == r.completed
            && (!q.error ==> q.replies == [FileResult(m.path, false)])
  {
    hide SameDigest, RemoveStaging, Remove, FinishFile, FindFile;
    var digest, key := o.entries[FindFile(o.entries, m.path).value].digest, Key(c.fold, m.path);
    if key in r.streams {
      var d := c.hash(r.streams[key].data);
      if SameDigest(digest, d) && SameDigest(m.digest, d) {
        SameDigestTwice(digest, m.digest, d);
      }
    }
  }
}
