/** Every schedule of the workers and the wires leads both peers to the same summary. */
module Summaries {
  import opened Names
  import opened Manifest
  import opened Validation
  import opened Destinations
  import opened Disk
  import opened Staging
  import opened Receiver
  import opened Outcomes
  import opened Publication
  import opened Sessions
  import opened Transfer

  // ---- the frames of one file ----

  function PathOf(m: Message): Option<Path> {
    match m
    case Content(_, path, _, _, _) => Some(path)
    case Complete(_, path, _, _, _, _) => Some(path)
    case FileFailed(_, path, _) => Some(path)
    case _ => None
  }

  /** The frames on the wire that name one file, in order. */
  function Frames(wire: seq<Message>, path: Path): seq<Message> {
    if wire == [] then []
    else (if PathOf(wire[0]) == Some(path) then [wire[0]] else []) + Frames(wire[1..], path)
  }

  lemma {:induction false} FramesAppend(wire: seq<Message>, m: Message, path: Path)
    ensures Frames(wire + [m], path) == Frames(wire, path) + (if PathOf(m) == Some(path) then [m] else [])
  {
    if wire == [] {
      assert wire + [m] == [m];
    } else {
      FramesAppend(wire[1..], m, path);
      assert (wire + [m])[1..] == wire[1..] + [m];
    }
  }

  /** `frames` are chunks that carry the bytes from `have` on, up to `all`. */
  ghost predicate Carries(o: Offer, entry: Entry, frames: seq<Message>, have: seq<Byte>, all: seq<Byte>) {
    if frames == [] then have == all
    else
      && IsNextChunk(o, entry, frames[0], have)
      && Carries(o, entry, frames[1..], have + frames[0].payload, all)
  }

  predicate IsNextChunk(o: Offer, entry: Entry, m: Message, have: seq<Byte>) {
    && m.Content? && m.offer == o.id && m.path == entry.path
    && m.offset == |have| && m.size == |m.payload| && m.size <= STREAM_CHUNK_BYTES
  }

  lemma {:induction false} CarriesPrefix(o: Offer, entry: Entry, frames: seq<Message>, have: seq<Byte>, all: seq<Byte>)
    requires Carries(o, entry, frames, have, all)
    ensures have <= all
  {
    if frames != [] {
      CarriesPrefix(o, entry, frames[1..], have + frames[0].payload, all);
    }
  }

  lemma {:induction false} CarriesAppend(o: Offer, entry: Entry, frames: seq<Message>, have: seq<Byte>, all: seq<Byte>, m: Message)
    requires Carries(o, entry, frames, have, all) && IsNextChunk(o, entry, m, all)
    ensures Carries(o, entry, frames + [m], have, all + m.payload)
  {
    if frames == [] {
      assert frames + [m] == [m];
      assert Carries(o, entry, [m][1..], have + m.payload, all + m.payload);
    } else {
      CarriesAppend(o, entry, frames[1..], have + frames[0].payload, all, m);
      assert (frames + [m])[1..] == frames[1..] + [m];
    }
  }

  // ---- one file, seen from both ends and the wire ----

  function Received(r: State, key: Path): seq<Byte> {
    if key in r.streams then r.streams[key].data else []
  }

  predicate IsTerminal(c: Config, o: Offer, entry: Entry, m: Message, bytes: seq<Byte>) {
    || (m.FileFailed? && m.offer == o.id && m.path == entry.path && m.reason != "")
    || (m.Complete? && m.offer == o.id && m.path == entry.path && m.size == entry.size == |bytes| && m.digest == c.hash(bytes))
  }

  /** The state of one file: queued and untouched; or being sent, with the bytes read
      equal to the bytes received plus those on the wire; or terminated, with one
      terminal frame last on the wire or one outcome recorded. */
  ghost predicate FileState(c: Config, o: Offer, entry: Entry, p: Progress, frames: seq<Message>, r: State) {
    var key := Key(c.fold, entry.path);
    match p
    case Queued => frames == [] && key !in r.streams && key !in r.outcomes
    case Sending(bytes, begun) =>
      && key !in r.outcomes && |bytes| <= entry.size
      && Carries(o, entry, frames, Received(r, key), bytes)
      && (begun ==> key in r.streams || frames != [])
      && (!begun ==> key !in r.streams && frames == [])
    case Terminated(bytes) =>
      if frames == [] then key in r.outcomes
      else
        var last, chunks := frames[|frames| - 1], frames[..|frames| - 1];
        && key !in r.outcomes && |bytes| <= entry.size
        && IsTerminal(c, o, entry, last, bytes)
        && Carries(o, entry, chunks, Received(r, key), bytes)
        && (last.Complete? ==> key in r.streams || chunks != [])
  }

  ghost predicate AllFiles(c: Config, o: Offer, s: System) {
    && |s.progress| == |Jobs(o)|
    && forall j: nat | j < |Jobs(o)| ::
         FileState(c, o, FileOf(o, j), s.progress[j], Frames(s.wire, FileOf(o, j).path), s.receiver)
  }

  /** Before the batch frame the wire names files only; afterwards it is that frame alone. */
  ghost predicate WireShape(o: Offer, wire: seq<Message>, batchSent: bool) {
    if batchSent then wire == [] || wire == [BatchComplete(o.id)]
    else forall k | 0 <= k < |wire| :: NamesFile(o, wire[k])
  }

  ghost predicate NamesFile(o: Offer, m: Message) {
    exists j: nat :: j < |Jobs(o)| && PathOf(m) == Some(FileOf(o, j).path)
  }

  ghost predicate WorkerBook(s: System) {
    && s.next <= |s.progress|
    && (forall j | 0 <= j < |s.progress| :: s.progress[j].Queued? <==> j >= s.next)
    && (forall w | 0 <= w < |s.workers| && s.workers[w].Some? ::
          s.workers[w].value < |s.progress| && s.progress[s.workers[w].value].Sending?)
    && (forall w, v | 0 <= w < v < |s.workers| && s.workers[w].Some? :: s.workers[w] != s.workers[v])
    && (forall j | 0 <= j < |s.progress| && s.progress[j].Sending? :: Some(j) in s.workers)
  }

  function Results(back: seq<Reply>, success: bool): nat {
    if back == [] then 0
    else (if back[0].FileResult? && back[0].success == success then 1 else 0) + Results(back[1..], success)
  }

  lemma {:induction false} ResultsAppend(back: seq<Reply>, reply: Reply, success: bool)
    ensures Results(back + [reply], success)
         == Results(back, success) + (if reply.FileResult? && reply.success == success then 1 else 0)
  {
    if back == [] {
      assert back + [reply] == [reply];
    } else {
      ResultsAppend(back[1..], reply, success);
      assert (back + [reply])[1..] == back[1..] + [reply];
    }
  }

  ghost predicate OnlyFileResults(back: seq<Reply>) {
    forall k | 0 <= k < |back| :: back[k].FileResult?
  }

  /** Results in flight make up the difference between the two peers' counters; after
      the batch frame nothing but the final verdict remains. */
  ghost predicate Counted(o: Offer, s: System) {
    && s.succeeded + Results(s.back, true) == s.receiver.completed
    && s.failed + Results(s.back, false) == s.receiver.failed
    && s.succeeded + s.failed <= FileCount(o)
    && (if s.batchSent then
          && s.succeeded + s.failed == FileCount(o)
          && (s.receiver.live <==> s.wire != [])
          && (if s.wire == [] && s.verdict == None then s.back == [BatchResult(s.failed == 0)] else s.back == [])
          && (s.verdict.Some? ==> s.wire == [] && s.verdict == Some(s.failed == 0))
        else OnlyFileResults(s.back) && s.receiver.live && s.verdict == None)
  }

  ghost predicate ReceiverSound(c: Config, o: Offer, base: Disk, r: State) {
    Sound(c, o, base, r) && (r.live || Finished(c, o, base, r)) && Books(c, o, r) && r.accepted
  }

  ghost predicate Inv(c: Config, o: Offer, base: Disk, s: System) {
    && !s.refused
    && AllFiles(c, o, s) && WireShape(o, s.wire, s.batchSent) && WorkerBook(s) && Counted(o, s) && ReceiverSound(c, o, base, s.receiver)
  }

  // ---- names of files ----

  lemma FilesDiffer(c: Config, o: Offer, j: nat, k: nat)
    requires UniqueKeys(c.fold, o.entries) && j < |Jobs(o)| && k < |Jobs(o)| && j != k
    ensures FileOf(o, j).path != FileOf(o, k).path
    ensures Key(c.fold, FileOf(o, j).path) != Key(c.fold, FileOf(o, k).path)
  {
    var a, b := Jobs(o)[j], Jobs(o)[k];
    assert a != b;
    if a < b {
      assert Key(c.fold, o.entries[a].path) != Key(c.fold, o.entries[b].path);
    } else {
      assert Key(c.fold, o.entries[b].path) != Key(c.fold, o.entries[a].path);
    }
  }

  lemma FoundFile(c: Config, o: Offer, j: nat)
    requires UniqueKeys(c.fold, o.entries) && j < |Jobs(o)|
    ensures FindFile(o.entries, FileOf(o, j).path) == Some(Jobs(o)[j])
  {
    var found := FindFile(o.entries, FileOf(o, j).path);
    SameKeySameIndex(c.fold, o.entries, found.value, Jobs(o)[j]);
  }

  // ---- what the receiver makes of an honest frame ----

  ghost predicate SameFor(r: State, r': State, key: Path) {
    && (key in r.streams <==> key in r'.streams)
    && Received(r, key) == Received(r', key)
    && (key in r.outcomes <==> key in r'.outcomes)
  }

  ghost predicate SameBooks(r: State, r': State) {
    && r'.live == r.live && r'.accepted == r.accepted && r'.outcomes == r.outcomes
    && r'.completed == r.completed && r'.failed == r.failed
  }

  lemma StartChangesOneStream(c: Config, r: State, key: Path, i: nat, e: Env)
    requires key !in r.streams
    ensures var r' := StartStream(c, r, key, i, e);
            && SameBooks(r, r') && key in r'.streams && r'.streams[key].data == []
            && forall k | k != key :: SameFor(r, r', k)
  {
    hide NewTemp, NewTempDisk;
  }

  lemma WriteChangesOneStream(r: State, key: Path, bytes: seq<Byte>, w: Written)
    requires key in r.streams
    ensures var r' := WriteChunk(r, key, bytes, w);
            && SameBooks(r, r') && key in r'.streams && r'.streams[key].data == r.streams[key].data + bytes
            && forall k | k != key :: SameFor(r, r', k)
  {
  }

  lemma ChunkIsTaken(c: Config, o: Offer, r: State, j: nat, m: Message, e: Env)
    requires UniqueKeys(c.fold, o.entries) && j < |Jobs(o)| && r.live && r.accepted
    requires var key := Key(c.fold, FileOf(o, j).path);
             && key !in r.outcomes && IsNextChunk(o, FileOf(o, j), m, Received(r, key))
             && |Received(r, key)| + |m.payload| <= FileOf(o, j).size
    ensures var key := Key(c.fold, FileOf(o, j).path);
            var q := Step(c, o, r, m, e);
            && !q.error && q.replies == [] && SameBooks(r, q.state)
            && key in q.state.streams && Received(q.state, key) == Received(r, key) + m.payload
            && forall k | k != key :: SameFor(r, q.state, k)
  {
    hide StartStream, WriteChunk, RemoveIncomingFiles, UniqueKeys;
    FoundFile(c, o, j);
    var key := Key(c.fold, FileOf(o, j).path);
    assert m.payload[..m.size] == m.payload;
    var current := r;
    if key !in r.streams {
      StartChangesOneStream(c, r, key, Jobs(o)[j], e);
      current := StartStream(c, r, key, Jobs(o)[j], e);
    }
    WriteChangesOneStream(current, key, m.payload, e.write);
    var after := WriteChunk(current, key, m.payload, e.write);
    assert Step(c, o, r, m, e) == Proceed(after);
    forall k | k != key ensures SameFor(r, after, k) {
      assert SameFor(r, current, k) && SameFor(current, after, k);
    }
  }

  lemma FailureIsRecorded(c: Config, o: Offer, r: State, path: Path, e: Env)
    requires e.sendOk
    ensures var q := FailFile(c, r, path, e);
            var key := Key(c.fold, path);
            && !q.error && q.replies == [FileResult(path, false)] && q.state.live == r.live && q.state.accepted == r.accepted
            && q.state.outcomes == r.outcomes + {key}
            && q.state.completed == r.completed && q.state.failed == r.failed + 1
            && forall k | k != key :: SameFor(r, q.state, k)
  {
    hide RemoveStaging, Remove;
  }

  /** One more outcome for `key`, a success or a failure, and one result on its way. */
  ghost predicate OneOutcome(r: State, q: Outcome, key: Path) {
    && !q.error && q.state.live && q.state.accepted && q.state.outcomes == r.outcomes + {key}
    && |q.replies| == 1 && q.replies[0].FileResult?
    && q.state.completed == r.completed + (if q.replies[0].success then 1 else 0)
    && q.state.failed == r.failed + (if q.replies[0].success then 0 else 1)
    && forall k | k != key :: SameFor(r, q.state, k)
  }

  lemma FinishIsRecorded(c: Config, o: Offer, listed: set<string>, base: Disk, r: State, key: Path, i: nat, e: Env)
    requires Setting(c, o, listed, base) && DiskInv(c, o, base, r) && r.live && r.accepted && Benign(e)
    requires i < |o.entries| && key in r.streams && key == Key(c.fold, o.entries[i].path)
    ensures OneOutcome(r, FinishFile(c, o, r, key, i, e), key)
  {
    hide Setting, DiskInv, At, FailFile, MakeParents, Remove;
    var path, final := o.entries[i].path, At(c.fold, o, i);
    ParentsAreThere(c, o, listed, base, r, i);
    assert r.(disk := r.disk) == r;
    var temp := r.streams[key].temp;
    var q := FinishFile(c, o, r, key, i, e);
    if !e.publishOk || final in r.disk || temp == None || temp.value !in r.disk {
      FailureIsRecorded(c, o, r, path, e);
    } else if !e.metadataOk {
      var moved := Publish(r, key, final, i);
      var back := r.(disk := Remove(moved.disk, final), streams := moved.streams);
      FailureIsRecorded(c, o, back, path, e);
      OneOutcomeFrom(r, back, q, key);
    }
  }

  lemma OneOutcomeFrom(r: State, r': State, q: Outcome, key: Path)
    requires OneOutcome(r', q, key) && SameBooks(r, r') && forall k | k != key :: SameFor(r, r', k)
    ensures OneOutcome(r, q, key)
  {
    forall k | k != key ensures SameFor(r, q.state, k) {
      assert SameFor(r, r', k) && SameFor(r', q.state, k);
    }
  }

  lemma TerminalIsRecorded(c: Config, o: Offer, listed: set<string>, base: Disk, r: State, j: nat, m: Message, bytes: seq<Byte>, e: Env)
    requires Setting(c, o, listed, base) && Sound(c, o, base, r) && Books(c, o, r) && r.live && r.accepted && Benign(e)
    requires j < |Jobs(o)| && IsTerminal(c, o, FileOf(o, j), m, bytes)
    requires var key := Key(c.fold, FileOf(o, j).path);
             && key !in r.outcomes && (m.Complete? ==> key in r.streams) && Received(r, key) == bytes
    ensures OneOutcome(r, Step(c, o, r, m, e), Key(c.fold, FileOf(o, j).path))
  {
    hide Setting, DiskInv, FailFile, FinishFile, Verified, Books, Finished, Settled;
    SettingIsUnique(c, o, listed, base);
    FoundFile(c, o, j);
    var entry, i := FileOf(o, j), Jobs(o)[j];
    var key := Key(c.fold, entry.path);
    if m.FileFailed? {
      FailureIsRecorded(c, o, r, entry.path, e);
      assert entry.path != [] by {
        PathsNonEmpty(c, o, listed, base, i);
      }
    } else {
      var stream := r.streams[key];
      var closed := stream.(writeFailure := stream.writeFailure || (stream.temp.Some? && !(e.syncOk && e.closeOk)));
      var r' := r.(streams := r.streams[key := closed]);
      ClosedKeepsDisk(c, o, listed, base, r, key, closed);
      FailureIsRecorded(c, o, r', entry.path, e);
      FinishIsRecorded(c, o, listed, base, r', key, i, e);
      OneOutcomeFrom(r, r', Step(c, o, r, m, e), key);
    }
  }

  lemma PathsNonEmpty(c: Config, o: Offer, listed: set<string>, base: Disk, i: nat)
    requires Setting(c, o, listed, base) && i < |o.entries|
    ensures o.entries[i].path != []
  {
    hide At, IsTree, NoRootNamedStaging;
    SafeNonEmpty(c.fold, listed, o, i);
  }

  // ---- the sender's steps ----

  lemma SenderKeepsFiles(c: Config, o: Offer, s: System, s': System, j: nat, p: Progress, sent: seq<Message>)
    requires UniqueKeys(c.fold, o.entries) && AllFiles(c, o, s) && j < |Jobs(o)|
    requires |sent| <= 1 && (sent != [] ==> PathOf(sent[0]) == Some(FileOf(o, j).path))
    requires s'.receiver == s.receiver && s'.progress == s.progress[j := p] && s'.wire == s.wire + sent
    requires FileState(c, o, FileOf(o, j), p, Frames(s.wire, FileOf(o, j).path) + sent, s.receiver)
    ensures AllFiles(c, o, s')
  {
    hide FileState, UniqueKeys;
    forall k: nat | k < |Jobs(o)|
      ensures FileState(c, o, FileOf(o, k), s'.progress[k], Frames(s'.wire, FileOf(o, k).path), s'.receiver)
    {
      var path := FileOf(o, k).path;
      if sent == [] {
        assert s'.wire == s.wire;
        assert Frames(s.wire, path) + sent == Frames(s.wire, path);
      } else {
        assert sent == [sent[0]];
        FramesAppend(s.wire, sent[0], path);
        if k != j {
          FilesDiffer(c, o, j, k);
          assert Frames(s.wire, path) + [] == Frames(s.wire, path);
        }
      }
    }
  }

  lemma TakeJobKeepsInv(c: Config, o: Offer, base: Disk, s: System, w: nat)
    requires UniqueKeys(c.fold, o.entries) && Inv(c, o, base, s) && Enabled(o, s, TakeJob(w))
    requires forall i | 0 <= i < |o.entries| :: 0 <= o.entries[i].size
    ensures Inv(c, o, base, Next(c, o, s, TakeJob(w)))
  {
    hide UniqueKeys, ReceiverSound;
    var s' := Next(c, o, s, TakeJob(w));
    var j := s.next;
    assert s.progress[j].Queued?;
    assert s.wire + [] == s.wire;
    var path := FileOf(o, j).path;
    assert FileState(c, o, FileOf(o, j), s.progress[j], Frames(s.wire, path), s.receiver);
    assert Frames(s.wire, path) + [] == Frames(s.wire, path);
    SenderKeepsFiles(c, o, s, s', j, Sending([], false), []);
    TakeJobKeepsWorkers(s, s', w);
  }

  lemma TakeJobKeepsWorkers(s: System, s': System, w: nat)
    requires WorkerBook(s) && w < |s.workers| && s.workers[w] == None && s.next < |s.progress|
    requires s'.workers == s.workers[w := Some(s.next)] && s'.next == s.next + 1
    requires s'.progress == s.progress[s.next := Sending([], false)]
    ensures WorkerBook(s')
  {
    assert s'.workers[w] == Some(s.next);
    forall j | 0 <= j < |s'.progress| && s'.progress[j].Sending? ensures Some(j) in s'.workers {
      if j != s.next {
        assert Some(j) in s.workers;
        var v :| 0 <= v < |s.workers| && s.workers[v] == Some(j);
        assert s'.workers[v] == Some(j);
      }
    }
  }

  lemma LeaveJobKeepsWorkers(s: System, s': System, w: nat, p: Progress)
    requires WorkerBook(s) && w < |s.workers| && s.workers[w].Some? && p.Terminated?
    requires s'.workers == s.workers[w := None] && s'.next == s.next
    requires s'.progress == s.progress[s.workers[w].value := p]
    ensures WorkerBook(s')
  {
    var left := s.workers[w].value;
    forall j | 0 <= j < |s'.progress| && s'.progress[j].Sending? ensures Some(j) in s'.workers {
      assert j != left && Some(j) in s.workers;
      var v :| 0 <= v < |s.workers| && s.workers[v] == Some(j);
      assert s'.workers[v] == Some(j);
    }
  }

  lemma ResultsNameFiles(back: seq<Reply>)
    requires OnlyFileResults(back)
    ensures Results(back, true) + Results(back, false) == |back|
  {
    if back != [] {
      assert forall k | 0 <= k < |back[1..]| :: back[1..][k] == back[k + 1];
      ResultsNameFiles(back[1..]);
    }
  }

  /** While a file is still without an outcome the batch frame cannot have been sent. */
  lemma NoBatchYet(c: Config, o: Offer, base: Disk, s: System, j: nat)
    requires UniqueKeys(c.fold, o.entries) && Inv(c, o, base, s)
    requires j < |Jobs(o)| && Key(c.fold, FileOf(o, j).path) !in s.receiver.outcomes
    ensures !s.batchSent
  {
    hide UniqueKeys, Sound, FileState, AllFiles, WorkerBook, FileKeys;
    CountersMeetTheFileCount(c, o, s.receiver);
    FileHasKey(c, o, Jobs(o)[j]);
    assert Results([BatchResult(true)], true) == Results([BatchResult(true)], false) == 0;
    assert Results([BatchResult(false)], true) == Results([BatchResult(false)], false) == 0;
  }

  lemma WireGrows(o: Offer, s: System, s': System, j: nat, m: Message)
    requires WireShape(o, s.wire, s.batchSent) && !s.batchSent && !s'.batchSent && j < |Jobs(o)|
    requires s'.wire == s.wire + [m] && PathOf(m) == Some(FileOf(o, j).path)
    ensures WireShape(o, s'.wire, s'.batchSent)
  {
    assert NamesFile(o, m);
    assert forall k | 0 <= k < |s.wire| :: s'.wire[k] == s.wire[k];
  }

  lemma SendChunkKeepsInv(c: Config, o: Offer, base: Disk, s: System, w: nat, payload: seq<Byte>)
    requires UniqueKeys(c.fold, o.entries) && Inv(c, o, base, s) && Enabled(o, s, SendChunk(w, payload))
    ensures Inv(c, o, base, Next(c, o, s, SendChunk(w, payload)))
  {
    hide UniqueKeys, ReceiverSound, Carries, Frames;
    var s' := Next(c, o, s, SendChunk(w, payload));
    var j := s.workers[w].value;
    var entry, p := FileOf(o, j), s.progress[j];
    var frames := Frames(s.wire, entry.path);
    var m := Chunk(o, entry, p.bytes, payload);
    assert FileState(c, o, entry, p, frames, s.receiver);
    NoBatchYet(c, o, base, s, j);
    CarriesAppend(o, entry, frames, Received(s.receiver, Key(c.fold, entry.path)), p.bytes, m);
    assert FileState(c, o, entry, Sending(p.bytes + payload, true), frames + [m], s.receiver);
    SenderKeepsFiles(c, o, s, s', j, Sending(p.bytes + payload, true), [m]);
    WireGrows(o, s, s', j, m);
  }

  /** A worker leaves its file with a terminal frame. */
  lemma LeaveKeepsInv(c: Config, o: Offer, base: Disk, s: System, s': System, w: nat, m: Message)
    requires UniqueKeys(c.fold, o.entries) && Inv(c, o, base, s) && Working(o, s, w)
    requires var j := s.workers[w].value;
             var p := s.progress[j];
             && IsTerminal(c, o, FileOf(o, j), m, p.bytes) && (m.Complete? ==> p.begun)
             && s' == s.(workers := s.workers[w := None], progress := s.progress[j := Terminated(p.bytes)], wire := s.wire + [m])
    ensures Inv(c, o, base, s')
  {
    hide UniqueKeys, ReceiverSound, Carries, Frames;
    var j := s.workers[w].value;
    var entry, p := FileOf(o, j), s.progress[j];
    var frames := Frames(s.wire, entry.path);
    assert FileState(c, o, entry, p, frames, s.receiver);
    NoBatchYet(c, o, base, s, j);
    assert (frames + [m])[..|frames|] == frames;
    assert FileState(c, o, entry, Terminated(p.bytes), frames + [m], s.receiver);
    SenderKeepsFiles(c, o, s, s', j, Terminated(p.bytes), [m]);
    WireGrows(o, s, s', j, m);
    LeaveJobKeepsWorkers(s, s', w, Terminated(p.bytes));
  }

  lemma SendTerminalKeepsInv(c: Config, o: Offer, base: Disk, s: System, a: Action)
    requires UniqueKeys(c.fold, o.entries) && Inv(c, o, base, s) && Enabled(o, s, a) && (a.SendComplete? || a.SendFailure?)
    ensures Inv(c, o, base, Next(c, o, s, a))
  {
    hide UniqueKeys, ReceiverSound, Frames, WireShape, Counted, WorkerBook;
    var w := a.w;
    var j := s.workers[w].value;
    var entry, p := FileOf(o, j), s.progress[j];
    assert FileState(c, o, entry, p, Frames(s.wire, entry.path), s.receiver);
    if a.SendComplete? {
      LeaveKeepsInv(c, o, base, s, Next(c, o, s, a), w, Completion(c, o, entry, p.bytes, a.changed));
    } else {
      LeaveKeepsInv(c, o, base, s, Next(c, o, s, a), w, FileFailed(o.id, entry.path, a.reason));
    }
  }

  /** A file with its outcome has no frame left on the wire. */
  lemma NoFrameOfDoneFile(c: Config, o: Offer, s: System, j: nat)
    requires AllFiles(c, o, s) && WorkerBook(s) && AllIdle(s) && s.next == |s.progress| && j < |Jobs(o)|
    requires Key(c.fold, FileOf(o, j).path) in s.receiver.outcomes
    ensures Frames(s.wire, FileOf(o, j).path) == []
  {
    hide Carries, IsTerminal;
    assert FileState(c, o, FileOf(o, j), s.progress[j], Frames(s.wire, FileOf(o, j).path), s.receiver);
    assert Some(j) !in s.workers;
  }

  lemma HeadIsFramed(wire: seq<Message>, path: Path)
    requires wire != [] && PathOf(wire[0]) == Some(path)
    ensures Frames(wire, path) != []
  {
  }

  lemma FirstNamesFile(o: Offer, wire: seq<Message>)
    requires WireShape(o, wire, false)
    ensures wire == [] || NamesFile(o, wire[0])
  {
    hide NamesFile;
  }

  lemma EveryFileIsDone(c: Config, o: Offer, base: Disk, s: System)
    requires UniqueKeys(c.fold, o.entries) && Inv(c, o, base, s)
    requires s.succeeded + s.failed == FileCount(o) && AllIdle(s) && s.next == |s.progress| && !s.batchSent
    ensures s.wire == [] && s.back == []
    ensures s.receiver.completed == s.succeeded && s.receiver.failed == s.failed
  {
    hide UniqueKeys, Sound, Finished, AllFiles, WorkerBook, WireShape, FileKeys, Books, AllIdle;
    CountersMeetTheFileCount(c, o, s.receiver);
    ResultsNameFiles(s.back);
    FirstNamesFile(o, s.wire);
    forall j: nat | j < |Jobs(o)| ensures s.wire == [] || PathOf(s.wire[0]) != Some(FileOf(o, j).path) {
      FileHasKey(c, o, Jobs(o)[j]);
      NoFrameOfDoneFile(c, o, s, j);
      if s.wire != [] && PathOf(s.wire[0]) == Some(FileOf(o, j).path) {
        HeadIsFramed(s.wire, FileOf(o, j).path);
      }
    }
  }

  lemma SendBatchKeepsInv(c: Config, o: Offer, base: Disk, s: System)
    requires UniqueKeys(c.fold, o.entries) && Inv(c, o, base, s) && Enabled(o, s, SendBatch)
    ensures Inv(c, o, base, Next(c, o, s, SendBatch))
  {
    hide UniqueKeys, ReceiverSound, FileState;
    EveryFileIsDone(c, o, base, s);
    var s' := Next(c, o, s, SendBatch);
    assert s.wire + [BatchComplete(o.id)] == [BatchComplete(o.id)];
    forall j: nat | j < |Jobs(o)|
      ensures FileState(c, o, FileOf(o, j), s'.progress[j], Frames(s'.wire, FileOf(o, j).path), s'.receiver)
    {
      assert Frames(s'.wire, FileOf(o, j).path) == Frames(s.wire, FileOf(o, j).path) by {
        FramesAppend(s.wire, BatchComplete(o.id), FileOf(o, j).path);
      }
    }
  }

  lemma TakeResultKeepsInv(c: Config, o: Offer, base: Disk, s: System)
    requires Inv(c, o, base, s) && Enabled(o, s, TakeResult)
    ensures Inv(c, o, base, Next(c, o, s, TakeResult))
  {
    hide ReceiverSound, FileState;
    var s' := Next(c, o, s, TakeResult);
    assert AllFiles(c, o, s');
    assert WireShape(o, s'.wire, s'.batchSent);
    assert WorkerBook(s');
    assert forall k | 0 <= k < |s'.back| :: s'.back[k] == s.back[k + 1];
    assert Counted(o, s');
    assert ReceiverSound(c, o, base, s'.receiver);
  }

  // ---- the receiver's steps ----

  /** What delivering one frame of file `j` does: that file moves on, the others stay,
      and the counters move by the results sent back. */
  ghost predicate Taken(c: Config, o: Offer, s: System, j: nat, q: Outcome)
    requires j < |Jobs(o)| == |s.progress| && s.wire != []
  {
    var entry := FileOf(o, j);
    && !q.error && q.state.live == s.receiver.live && q.state.accepted
    && FileState(c, o, entry, s.progress[j], Frames(s.wire[1..], entry.path), q.state)
    && OnlyFileResults(q.replies) && |q.replies| <= 1
    && q.state.completed == s.receiver.completed + Results(q.replies, true)
    && q.state.failed == s.receiver.failed + Results(q.replies, false)
    && forall k | k != Key(c.fold, entry.path) :: SameFor(s.receiver, q.state, k)
  }

  lemma SameForKeepsFile(c: Config, o: Offer, entry: Entry, p: Progress, frames: seq<Message>, r: State, r': State)
    requires FileState(c, o, entry, p, frames, r) && SameFor(r, r', Key(c.fold, entry.path))
    ensures FileState(c, o, entry, p, frames, r')
  {
  }

  lemma ResultsOfOne(reply: Reply)
    requires reply.FileResult?
    ensures OnlyFileResults([reply])
    ensures Results([reply], true) == (if reply.success then 1 else 0) && Results([reply], false) == (if reply.success then 0 else 1)
  {
    assert [reply][1..] == [];
  }

  lemma NextChunk(o: Offer, entry: Entry, frames: seq<Message>, have: seq<Byte>, all: seq<Byte>)
    requires Carries(o, entry, frames, have, all) && frames != []
    ensures IsNextChunk(o, entry, frames[0], have) && |have| + |frames[0].payload| <= |all|
    ensures Carries(o, entry, frames[1..], have + frames[0].payload, all)
  {
    CarriesPrefix(o, entry, frames[1..], have + frames[0].payload, all);
  }

  /** The chunks among a file's frames: all of them, or all but the terminal one. */
  function Chunks(p: Progress, frames: seq<Message>): seq<Message> {
    if p.Terminated? && frames != [] then frames[..|frames| - 1] else frames
  }

  lemma ChunksOfTail(p: Progress, frames: seq<Message>)
    requires frames != [] && frames[0].Content? && (p.Terminated? ==> !frames[|frames| - 1].Content?)
    ensures Chunks(p, frames) != [] && Chunks(p, frames)[0] == frames[0]
    ensures Chunks(p, frames)[1..] == Chunks(p, frames[1..])
    ensures p.Terminated? ==> frames[1..] != [] && frames[1..][|frames| - 2] == frames[|frames| - 1]
  {
  }

  /** The chunk at the head of a file's frames is the one the receiver expects next. */
  lemma HeadChunkFits(c: Config, o: Offer, entry: Entry, p: Progress, frames: seq<Message>, r: State)
    requires FileState(c, o, entry, p, frames, r) && frames != [] && frames[0].Content?
    ensures var key := Key(c.fold, entry.path);
            && key !in r.outcomes && IsNextChunk(o, entry, frames[0], Received(r, key))
            && |Received(r, key)| + |frames[0].payload| <= entry.size
  {
    hide Carries, IsNextChunk;
    ChunksOfTail(p, frames);
    NextChunk(o, entry, Chunks(p, frames), Received(r, Key(c.fold, entry.path)), p.bytes);
  }

  lemma HeadChunkLeaves(c: Config, o: Offer, entry: Entry, p: Progress, frames: seq<Message>, r: State, r': State)
    requires FileState(c, o, entry, p, frames, r) && frames != [] && frames[0].Content?
    requires var key := Key(c.fold, entry.path);
             && r'.outcomes == r.outcomes && key in r'.streams && Received(r', key) == Received(r, key) + frames[0].payload
    ensures FileState(c, o, entry, p, frames[1..], r')
  {
    hide Carries, IsNextChunk;
    ChunksOfTail(p, frames);
    NextChunk(o, entry, Chunks(p, frames), Received(r, Key(c.fold, entry.path)), p.bytes);
  }

  lemma ChunkMovesOn(c: Config, o: Offer, s: System, j: nat, e: Env)
    requires UniqueKeys(c.fold, o.entries) && s.receiver.live && s.receiver.accepted
    requires j < |Jobs(o)| == |s.progress| && s.wire != [] && PathOf(s.wire[0]) == Some(FileOf(o, j).path) && s.wire[0].Content?
    requires FileState(c, o, FileOf(o, j), s.progress[j], Frames(s.wire, FileOf(o, j).path), s.receiver)
    ensures Taken(c, o, s, j, Step(c, o, s.receiver, s.wire[0], e))
  {
    hide UniqueKeys, Step, FileState, SameFor, IsNextChunk;
    var entry, m, p := FileOf(o, j), s.wire[0], s.progress[j];
    var frames := Frames(s.wire, entry.path);
    assert frames == [m] + Frames(s.wire[1..], entry.path);
    assert frames[1..] == Frames(s.wire[1..], entry.path);
    HeadChunkFits(c, o, entry, p, frames, s.receiver);
    ChunkIsTaken(c, o, s.receiver, j, m, e);
    HeadChunkLeaves(c, o, entry, p, frames, s.receiver, Step(c, o, s.receiver, m, e).state);
  }

  lemma TerminalMovesOn(c: Config, o: Offer, listed: set<string>, base: Disk, s: System, j: nat, e: Env)
    requires Setting(c, o, listed, base) && ReceiverSound(c, o, base, s.receiver) && s.receiver.live && Benign(e)
    requires j < |Jobs(o)| == |s.progress| && s.wire != [] && PathOf(s.wire[0]) == Some(FileOf(o, j).path) && !s.wire[0].Content?
    requires FileState(c, o, FileOf(o, j), s.progress[j], Frames(s.wire, FileOf(o, j).path), s.receiver)
    ensures Taken(c, o, s, j, Step(c, o, s.receiver, s.wire[0], e))
  {
    hide Setting, Sound, Books, Step;
    var entry, m, p := FileOf(o, j), s.wire[0], s.progress[j];
    var key := Key(c.fold, entry.path);
    var frames := Frames(s.wire, entry.path);
    var rest := Frames(s.wire[1..], entry.path);
    assert frames == [m] + rest;
    assert frames[0] == m;
    assert p.Terminated?;
    var chunks := frames[..|frames| - 1];
    assert frames == [m] && rest == [];
    TerminalIsRecorded(c, o, listed, base, s.receiver, j, m, p.bytes, e);
    var q := Step(c, o, s.receiver, m, e);
    assert q.replies == [q.replies[0]];
    ResultsOfOne(q.replies[0]);
  }

  lemma HeadIsTaken(c: Config, o: Offer, listed: set<string>, base: Disk, s: System, j: nat, e: Env)
    requires Setting(c, o, listed, base) && Inv(c, o, base, s) && !s.batchSent && s.wire != [] && Benign(e)
    requires j < |Jobs(o)| && PathOf(s.wire[0]) == Some(FileOf(o, j).path)
    ensures |Jobs(o)| == |s.progress| && Taken(c, o, s, j, Step(c, o, s.receiver, s.wire[0], e))
  {
    hide Setting, Sound, Books, Step, FileState, Taken;
    SettingIsUnique(c, o, listed, base);
    if s.wire[0].Content? {
      ChunkMovesOn(c, o, s, j, e);
    } else {
      TerminalMovesOn(c, o, listed, base, s, j, e);
    }
  }

  lemma StepStaysSound(c: Config, o: Offer, listed: set<string>, base: Disk, r: State, m: Message, e: Env)
    requires Setting(c, o, listed, base) && ReceiverSound(c, o, base, r)
    requires !Step(c, o, r, m, e).error && Step(c, o, r, m, e).state.accepted && Step(c, o, r, m, e).state.live
    ensures ReceiverSound(c, o, base, Step(c, o, r, m, e).state)
  {
    hide Setting, Sound, Books, Step, Settled;
    SettingIsUnique(c, o, listed, base);
    StepIsSound(c, o, listed, base, r, m, e);
    StepKeepsBooks(c, o, r, m, e);
  }

  lemma {:induction false} ResultsTogether(back: seq<Reply>, replies: seq<Reply>, success: bool)
    requires |replies| <= 1
    ensures Results(back + replies, success) == Results(back, success) + Results(replies, success)
  {
    if replies == [] {
      assert back + replies == back;
    } else {
      assert replies == [replies[0]] && replies[1..] == [];
      ResultsAppend(back, replies[0], success);
    }
  }

  lemma DeliverFileKeepsInv(c: Config, o: Offer, listed: set<string>, base: Disk, s: System, e: Env)
    requires Setting(c, o, listed, base) && Inv(c, o, base, s) && !s.batchSent && s.wire != [] && Benign(e)
    requires Enabled(o, s, Deliver(e))
    ensures Inv(c, o, base, Next(c, o, s, Deliver(e)))
  {
    hide Setting, Sound, Books, Step, FileState, WorkerBook, WireShape, Counted, AllFiles, UniqueKeys;
    SettingIsUnique(c, o, listed, base);
    ShorterWire(o, s.wire);
    var s' := Next(c, o, s, Deliver(e));
    var q := Step(c, o, s.receiver, s.wire[0], e);
    var j: nat :| j < |Jobs(o)| && PathOf(s.wire[0]) == Some(FileOf(o, j).path);
    HeadIsTaken(c, o, listed, base, s, j, e);
    LiveBeforeBatch(o, s);
    StepStaysSound(c, o, listed, base, s.receiver, s.wire[0], e);
    OtherFilesStay(c, o, s, s', j);
    CountedAfter(c, o, s, s', j, q);
    SameWorkers(s, s');
  }

  lemma CountedAfter(c: Config, o: Offer, s: System, s': System, j: nat, q: Outcome)
    requires j < |Jobs(o)| == |s.progress| && s.wire != [] && Taken(c, o, s, j, q) && Counted(o, s) && !s.batchSent
    requires s' == s.(wire := s.wire[1..], receiver := q.state, back := s.back + q.replies, refused := false)
    ensures Counted(o, s')
  {
    hide FileState, SameFor;
    ResultsTogether(s.back, q.replies, true);
    ResultsTogether(s.back, q.replies, false);
  }

  lemma ShorterWire(o: Offer, wire: seq<Message>)
    requires WireShape(o, wire, false) && wire != []
    ensures WireShape(o, wire[1..], false) && NamesFile(o, wire[0])
  {
    hide NamesFile;
    assert forall k | 0 <= k < |wire| - 1 :: wire[1..][k] == wire[k + 1];
  }

  lemma LiveBeforeBatch(o: Offer, s: System)
    requires Counted(o, s) && !s.batchSent
    ensures s.receiver.live
  {
  }

  lemma SameWorkers(s: System, s': System)
    requires WorkerBook(s) && s'.workers == s.workers && s'.next == s.next && s'.progress == s.progress
    ensures WorkerBook(s')
  {
  }

  lemma OtherFilesStay(c: Config, o: Offer, s: System, s': System, j: nat)
    requires UniqueKeys(c.fold, o.entries) && AllFiles(c, o, s) && s.wire != []
    requires j < |Jobs(o)| && PathOf(s.wire[0]) == Some(FileOf(o, j).path)
    requires s'.progress == s.progress && s'.wire == s.wire[1..]
    requires FileState(c, o, FileOf(o, j), s.progress[j], Frames(s'.wire, FileOf(o, j).path), s'.receiver)
    requires forall k | k != Key(c.fold, FileOf(o, j).path) :: SameFor(s.receiver, s'.receiver, k)
    ensures AllFiles(c, o, s')
  {
    hide FileState, UniqueKeys;
    forall k: nat | k < |Jobs(o)|
      ensures FileState(c, o, FileOf(o, k), s'.progress[k], Frames(s'.wire, FileOf(o, k).path), s'.receiver)
    {
      if k != j {
        FilesDiffer(c, o, j, k);
        assert Frames(s.wire, FileOf(o, k).path) == Frames(s'.wire, FileOf(o, k).path);
        SameForKeepsFile(c, o, FileOf(o, k), s.progress[k], Frames(s'.wire, FileOf(o, k).path), s.receiver, s'.receiver);
      }
    }
  }

  lemma DeliverBatchKeepsInv(c: Config, o: Offer, listed: set<string>, base: Disk, s: System, e: Env)
    requires Setting(c, o, listed, base) && Inv(c, o, base, s) && s.batchSent && s.wire != [] && Benign(e)
    requires Enabled(o, s, Deliver(e))
    ensures Inv(c, o, base, Next(c, o, s, Deliver(e)))
  {
    hide Setting, DiskInv, Settled, Finished, Books, FileState, WorkerBook, RemoveStaging, UniqueKeys;
    var s' := Next(c, o, s, Deliver(e));
    var q := Step(c, o, s.receiver, s.wire[0], e);
    assert s.back == [] && s.receiver.live;
    assert q == Outcome(s.receiver.(disk := RemoveStaging(c, s.receiver.disk), live := false), [BatchResult(s.failed == 0)], false);
    SettingIsUnique(c, o, listed, base);
    CountersMeetTheFileCount(c, o, s.receiver);
    BatchFinishes(c, o, listed, base, s.receiver);
    StepKeepsBooks(c, o, s.receiver, s.wire[0], e);
    forall j: nat | j < |Jobs(o)|
      ensures FileState(c, o, FileOf(o, j), s'.progress[j], Frames(s'.wire, FileOf(o, j).path), s'.receiver)
    {
      var path := FileOf(o, j).path;
      assert Frames(s.wire, path) == Frames(s'.wire, path);
      SameForKeepsFile(c, o, FileOf(o, j), s.progress[j], Frames(s'.wire, path), s.receiver, s'.receiver);
    }
    assert s'.back == [BatchResult(s.failed == 0)];
    assert s'.back[1..] == [];
    SameWorkers(s, s');
  }
}
