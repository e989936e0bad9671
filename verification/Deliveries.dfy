/** What every run of one accepted offer between two honest peers comes to. */
module Deliveries {
  import opened Names
  import opened Manifest
  import opened Validation
  import opened Destinations
  import opened Disk
  import opened Staging
  import opened Receiver
  import opened Outcomes
  import opened Publication
  import opened Sessions
  import opened Transfer
  import opened Summaries

  lemma NextKeepsInv(c: Config, o: Offer, listed: set<string>, base: Disk, s: System, a: Action)
    requires Setting(c, o, listed, base) && Inv(c, o, base, s)
    ensures Inv(c, o, base, Next(c, o, s, a))
  {
    hide Setting, Inv, Next, UniqueKeys;
    SettingIsUnique(c, o, listed, base);
    if !Enabled(o, s, a) {
      Stutters(c, o, s, a);
    } else {
      match a
      case TakeJob(w) =>
        SizesAreNatural(c, o, listed, base);
        TakeJobKeepsInv(c, o, base, s, w);
      case SendChunk(w, payload) => SendChunkKeepsInv(c, o, base, s, w, payload);
      case SendComplete(_, _) => SendTerminalKeepsInv(c, o, base, s, a);
      case SendFailure(_, _) => SendTerminalKeepsInv(c, o, base, s, a);
      case Deliver(e) =>
        if s.batchSent {
          DeliverBatchKeepsInv(c, o, listed, base, s, e);
        } else {
          DeliverFileKeepsInv(c, o, listed, base, s, e);
        }
      case TakeResult => TakeResultKeepsInv(c, o, base, s);
      case SendBatch => SendBatchKeepsInv(c, o, base, s);
    }
  }

  lemma Stutters(c: Config, o: Offer, s: System, a: Action)
    requires !Enabled(o, s, a)
    ensures Next(c, o, s, a) == s
  {
  }

  lemma SizesAreNatural(c: Config, o: Offer, listed: set<string>, base: Disk)
    requires Setting(c, o, listed, base)
    ensures forall i | 0 <= i < |o.entries| :: 0 <= o.entries[i].size
  {
  }

  lemma StartHasInv(c: Config, o: Offer, listed: set<string>, base: Disk, r: State, workers: nat)
    requires Setting(c, o, listed, base) && Sound(c, o, base, r) && Books(c, o, r)
    requires r == Accepted(r.disk, r.created)
    ensures Inv(c, o, base, Start(o, workers, r))
  {
    hide Setting, Sound, Books, UniqueKeys;
  }

  lemma {:induction false} RunKeepsInv(c: Config, o: Offer, listed: set<string>, base: Disk, s: System, actions: seq<Action>)
    requires Setting(c, o, listed, base) && Inv(c, o, base, s)
    ensures Inv(c, o, base, After(c, o, s, actions))
    decreases |actions|
  {
    hide Setting, Inv, Next;
    if actions != [] {
      NextKeepsInv(c, o, listed, base, s, actions[0]);
      RunKeepsInv(c, o, listed, base, Next(c, o, s, actions[0]), actions[1..]);
    }
  }

  lemma ReachableHasInv(c: Config, o: Offer, listed: set<string>, base: Disk, r: State, workers: nat, actions: seq<Action>)
    requires Begun(c, o, listed, base, r)
    ensures Inv(c, o, base, After(c, o, Start(o, workers, r), actions))
  {
    hide Setting, Inv, FolderDestinations, ParentsFirst, Sound, Books, After;
    PreparedIsSound(c, o, listed, base, r.disk, r.created);
    StartHasInv(c, o, listed, base, r, workers);
    RunKeepsInv(c, o, listed, base, Start(o, workers, r), actions);
  }

  // ---- the main results ----

  /** Under every schedule the receiver refuses nothing; once the sender has counted a
      result for every file its counters are the receiver's, every file has its outcome
      and nothing is left in flight; and the verdict it then gets is the right one. */
  lemma SummariesAgree(c: Config, o: Offer, listed: set<string>, base: Disk, r: State, workers: nat, actions: seq<Action>)
    requires Begun(c, o, listed, base, r)
    ensures var s := After(c, o, Start(o, workers, r), actions);
            && !s.refused
            && s.succeeded <= s.receiver.completed && s.failed <= s.receiver.failed
            && (s.succeeded + s.failed == FileCount(o) ==>
                  && s.succeeded == s.receiver.completed && s.failed == s.receiver.failed
                  && s.receiver.outcomes == FileKeys(c, o) && s.receiver.streams == map[])
            && (s.verdict.Some? ==>
                  && s.verdict == Some(s.failed == 0) && s.succeeded + s.failed == FileCount(o)
                  && Finished(c, o, base, s.receiver) && s.wire == [] && s.back == [])
  {
    hide Sound, Books, FileState, FileKeys, After, Finished, Setting, FolderDestinations, ParentsFirst;
    ReachableHasInv(c, o, listed, base, r, workers, actions);
    var s := After(c, o, Start(o, workers, r), actions);
    BegunIsUnique(c, o, listed, base, r);
    CountersMeetTheFileCount(c, o, s.receiver);
  }

  function BytesRead(p: Progress): seq<Byte> {
    match p
    case Queued => []
    case Sending(bytes, _) => bytes
    case Terminated(bytes) => bytes
  }

  lemma NothingCarried(o: Offer, entry: Entry, have: seq<Byte>, all: seq<Byte>)
    requires Carries(o, entry, [], have, all)
    ensures have == all
  {
  }

  lemma OutcomeHasNoStream(c: Config, o: Offer, r: State, key: Path)
    requires Books(c, o, r)
    ensures key in r.outcomes ==> key !in r.streams
  {
    assert key in r.streams ==> StreamBook(c, o, r, key, r.streams[key]);
  }

  /** Chunks of different files interleave freely on the wire, and still each reaches its
      own stream in place: what a stream holds is a prefix of what was read of that file,
      a chunk arrives at exactly that length, and a completion arrives after all of it. */
  lemma Demultiplexing(c: Config, o: Offer, listed: set<string>, base: Disk, r: State, workers: nat, actions: seq<Action>, j: nat)
    requires Begun(c, o, listed, base, r) && j < |Jobs(o)|
    ensures var s := After(c, o, Start(o, workers, r), actions);
            var entry := FileOf(o, j);
            var key := Key(c.fold, entry.path);
            && |s.progress| == |Jobs(o)|
            && Received(s.receiver, key) <= BytesRead(s.progress[j])
            && (s.wire != [] && PathOf(s.wire[0]) == Some(entry.path) ==>
                  var m := s.wire[0];
                  && (m.Content? ==> m.offset == |Received(s.receiver, key)| && m.size == |m.payload|
                                     && Received(s.receiver, key) + m.payload <= BytesRead(s.progress[j]))
                  && (m.Complete? ==> key in s.receiver.streams && s.receiver.streams[key].data == BytesRead(s.progress[j])
                                      && |BytesRead(s.progress[j])| == entry.size == m.size
                                      && m.digest == c.hash(BytesRead(s.progress[j]))))
  {
    hide Carries, After, Setting, FolderDestinations, ParentsFirst, Finished, Sound, FileKeys, UniqueKeys;
    ReachableHasInv(c, o, listed, base, r, workers, actions);
    BegunIsUnique(c, o, listed, base, r);
    var s := After(c, o, Start(o, workers, r), actions);
    var entry, p := FileOf(o, j), s.progress[j];
    var key := Key(c.fold, entry.path);
    var frames, have := Frames(s.wire, entry.path), Received(s.receiver, key);
    assert FileState(c, o, entry, p, frames, s.receiver);
    if p.Sending? || frames != [] {
      CarriesPrefix(o, entry, Chunks(p, frames), have, BytesRead(p));
      if Chunks(p, frames) != [] {
        NextChunk(o, entry, Chunks(p, frames), have, BytesRead(p));
        CarriesPrefix(o, entry, Chunks(p, frames)[1..], have + frames[0].payload, BytesRead(p));
      } else {
        NothingCarried(o, entry, have, BytesRead(p));
      }
    } else {
      OutcomeHasNoStream(c, o, s.receiver, key);
    }
  }

  // ---- a verdict of success means every file arrived ----

  lemma {:induction false} InjectiveImage<A, B>(f: map<A, B>)
    requires forall p, q | p in f && q in f && p != q :: f[p] != f[q]
    ensures |f.Values| == |f|
    decreases |f|
  {
    if f != map[] {
      var p :| p in f;
      var rest := f - {p};
      InjectiveImage(rest);
      forall v | v in f.Values ensures v in rest.Values + {f[p]} {
        var q :| q in f && f[q] == v;
        assert q != p ==> q in rest && rest[q] == v;
      }
      forall v | v in rest.Values ensures v in f.Values && v != f[p] {
        var q :| q in rest && rest[q] == v;
        assert q in f && f[q] == v;
      }
      assert f[p] in f.Values;
      assert f.Values == rest.Values + {f[p]};
      assert f.Keys == rest.Keys + {p};
      assert |f| == |f.Keys| && |rest| == |rest.Keys|;
    }
  }

  lemma PublishedAreAllFiles(c: Config, o: Offer, disk: Disk, published: map<Path, nat>, i: nat)
    requires UniqueKeys(c.fold, o.entries) && FilesVerified(c, o, disk, published) && |published| == FileCount(o)
    requires i < |o.entries| && o.entries[i].kind == FileKind
    ensures At(c.fold, o, i) in published && published[At(c.fold, o, i)] == i
  {
    hide At, EqualFold;
    var keys := map p | p in published :: Key(c.fold, o.entries[published[p]].path);
    forall p, q | p in keys && q in keys && p != q ensures keys[p] != keys[q] {
      var a, b := published[p], published[q];
      assert a != b;
      if a < b {
        assert Key(c.fold, o.entries[a].path) != Key(c.fold, o.entries[b].path);
      } else {
        assert Key(c.fold, o.entries[b].path) != Key(c.fold, o.entries[a].path);
      }
    }
    InjectiveImage(keys);
    assert keys.Keys == published.Keys;
    assert |keys| == |keys.Keys| && |published| == |published.Keys|;
    FileKeysAreCounted(c, o);
    SubsetOfSameSize(keys.Values, FileKeys(c, o));
    FileHasKey(c, o, i);
    var p :| p in keys && keys[p] == Key(c.fold, o.entries[i].path);
    SameKeySameIndex(c.fold, o.entries, published[p], i);
  }

  /** When the sender reports success, every file of the manifest lies at its destination
      with the approved size and digest, every folder is there, and the rest of the disk
      is as it was. */
  lemma TransferDelivers(c: Config, o: Offer, listed: set<string>, base: Disk, r: State, workers: nat, actions: seq<Action>)
    requires Begun(c, o, listed, base, r)
    requires After(c, o, Start(o, workers, r), actions).verdict == Some(true)
    ensures var disk := After(c, o, Start(o, workers, r), actions).receiver.disk;
            && (forall i: nat | i < |o.entries| && o.entries[i].kind == FileKind ::
                  var p := At(c.fold, o, i);
                  p in disk && VerifiedFile(c, o, i, disk[p]) && HasDigest(c, o.entries[i], disk[p]))
            && (forall p | p in FolderDestinations(c.fold, o) :: p in disk && disk[p] == Folder)
            && (forall p | p in base :: p in disk && disk[p] == base[p])
            && (forall p | p in disk ::
                  || p in base || p in FolderDestinations(c.fold, o)
                  || exists i: nat :: i < |o.entries| && o.entries[i].kind == FileKind && p == At(c.fold, o, i))
  {
    hide HasDigest, Begun, After, Books, Settled, At, VerifiedFile, FolderDestinations, Setting;
    SummariesAgree(c, o, listed, base, r, workers, actions);
    var s := After(c, o, Start(o, workers, r), actions);
    BegunIsUnique(c, o, listed, base, r);
    BegunHasSetting(c, o, listed, base, r);
    forall i: nat | i < |o.entries| && o.entries[i].kind == FileKind
      ensures At(c.fold, o, i) in s.receiver.published && s.receiver.published[At(c.fold, o, i)] == i
    {
      PublishedAreAllFiles(c, o, s.receiver.disk, s.receiver.published, i);
    }
    forall p | p in s.receiver.published ensures s.receiver.published[p] < |o.entries| && HasDigest(c, o.entries[s.receiver.published[p]], s.receiver.disk[p]) {
      VerifiedIsManifestFile(c, o, s.receiver.published[p], s.receiver.disk[p]);
      VerifiedHasDigest(c, o, s.receiver.published[p], s.receiver.disk[p]);
    }
    forall p | p in FolderDestinations(c.fold, o) ensures p !in base {
      FolderDestinationAvoidsStaging(c, o, listed, base, p);
    }
    forall p | p in s.receiver.published
      ensures exists i: nat :: i < |o.entries| && o.entries[i].kind == FileKind && p == At(c.fold, o, i)
    {
      VerifiedIsManifestFile(c, o, s.receiver.published[p], s.receiver.disk[p]);
    }
  }

  lemma VerifiedIsManifestFile(c: Config, o: Offer, i: nat, node: DiskNode)
    requires VerifiedFile(c, o, i, node)
    ensures i < |o.entries| && o.entries[i].kind == FileKind
  {
  }

  // ---- every run ends ----

  function FileWork(entry: Entry, p: Progress): int {
    match p
    case Queued => 2 * entry.size + 6
    case Sending(bytes, begun) => 2 * (entry.size - |bytes|) + (if begun then 3 else 5)
    case Terminated(_) => 0
  }

  function FilesWork(o: Offer, progress: seq<Progress>): int
    requires |progress| <= |Jobs(o)|
  {
    if progress == [] then 0
    else FilesWork(o, progress[..|progress| - 1]) + FileWork(FileOf(o, |progress| - 1), progress[|progress| - 1])
  }

  function WireWork(wire: seq<Message>): nat {
    if wire == [] then 0 else (if wire[0].Content? then 1 else 2) + WireWork(wire[1..])
  }

  /** What is left to do: reading, delivering, counting, closing. */
  function Work(o: Offer, s: System): int
    requires |s.progress| <= |Jobs(o)|
  {
    FilesWork(o, s.progress) + WireWork(s.wire) + |s.back| + (if s.batchSent then 0 else 3)
  }

  lemma {:induction false} FilesWorkUpdate(o: Offer, progress: seq<Progress>, j: nat, p: Progress)
    requires j < |progress| <= |Jobs(o)|
    ensures FilesWork(o, progress[j := p]) == FilesWork(o, progress) - FileWork(FileOf(o, j), progress[j]) + FileWork(FileOf(o, j), p)
  {
    var n := |progress| - 1;
    if j < n {
      FilesWorkUpdate(o, progress[..n], j, p);
      assert progress[j := p][..n] == progress[..n][j := p];
    } else {
      assert progress[j := p][..n] == progress[..n];
    }
  }

  lemma {:induction false} WireWorkAppend(wire: seq<Message>, m: Message)
    ensures WireWork(wire + [m]) == WireWork(wire) + (if m.Content? then 1 else 2)
  {
    if wire == [] {
      assert wire + [m] == [m];
    } else {
      WireWorkAppend(wire[1..], m);
      assert (wire + [m])[1..] == wire[1..] + [m];
    }
  }

  lemma {:induction false} FilesWorkIsNatural(c: Config, o: Offer, s: System, n: nat)
    requires AllFiles(c, o, s) && n <= |s.progress|
    requires forall i | 0 <= i < |o.entries| :: 0 <= o.entries[i].size
    ensures 0 <= FilesWork(o, s.progress[..n])
  {
    hide Carries, Frames, IsTerminal;
    if n > 0 {
      FilesWorkIsNatural(c, o, s, n - 1);
      assert s.progress[..n][..n - 1] == s.progress[..n - 1];
      var entry := FileOf(o, n - 1);
      assert FileState(c, o, entry, s.progress[n - 1], Frames(s.wire, entry.path), s.receiver);
    }
  }

  /** The replies to one frame: at most one, and none to a chunk. */
  lemma RepliesAreFew(c: Config, o: Offer, r: State, m: Message, e: Env)
    ensures |Step(c, o, r, m, e).replies| <= (if m.Content? then 0 else 1)
  {
    hide RemoveIncomingFiles, StartStream, WriteChunk, DropStream, MakeParents, Verified, FindFile;
  }

  /** Every step that is taken leaves less to do, so no run goes on for ever. */
  lemma EveryStepShrinks(c: Config, o: Offer, listed: set<string>, base: Disk, s: System, a: Action)
    requires Setting(c, o, listed, base) && Inv(c, o, base, s) && Enabled(o, s, a)
    ensures |s.progress| == |Next(c, o, s, a).progress| == |Jobs(o)|
    ensures 0 <= Work(o, Next(c, o, s, a)) < Work(o, s)
  {
    hide Setting, Inv, Step, FileState, Work, WorkerBook, Benign;
    NextKeepsInv(c, o, listed, base, s, a);
    InvHasFiles(c, o, base, s);
    var s' := Next(c, o, s, a);
    InvHasFiles(c, o, base, s');
    SizesAreNatural(c, o, listed, base);
    FilesWorkIsNatural(c, o, s', |s'.progress|);
    assert s'.progress[..|s'.progress|] == s'.progress;
    WorkShrinks(c, o, s, a);
    WorkIsNatural(o, s');
  }

  lemma WorkIsNatural(o: Offer, s: System)
    requires |s.progress| == |Jobs(o)| && 0 <= FilesWork(o, s.progress)
    ensures 0 <= Work(o, s)
  {
  }

  lemma InvHasFiles(c: Config, o: Offer, base: Disk, s: System)
    requires Inv(c, o, base, s)
    ensures AllFiles(c, o, s) && WorkerBook(s) && |s.progress| == |Jobs(o)|
  {
  }

  lemma LeavingShrinks(c: Config, o: Offer, s: System, s': System, w: nat, m: Message)
    requires AllFiles(c, o, s) && Working(o, s, w) && !m.Content?
    requires var j := s.workers[w].value;
             s' == s.(workers := s'.workers, progress := s.progress[j := Terminated(s.progress[j].bytes)], wire := s.wire + [m])
    ensures Work(o, s') < Work(o, s)
  {
    hide Carries, Frames;
    var j := s.workers[w].value;
    assert FileState(c, o, FileOf(o, j), s.progress[j], Frames(s.wire, FileOf(o, j).path), s.receiver);
    FilesWorkUpdate(o, s.progress, j, Terminated(s.progress[j].bytes));
    WireWorkAppend(s.wire, m);
  }

  lemma ReadingShrinks(c: Config, o: Offer, s: System, a: Action)
    requires AllFiles(c, o, s) && WorkerBook(s) && Enabled(o, s, a) && (a.TakeJob? || a.SendChunk?)
    ensures |Next(c, o, s, a).progress| == |Jobs(o)| && Work(o, Next(c, o, s, a)) < Work(o, s)
  {
    hide FileState, Frames;
    match a
    case TakeJob(w) => FilesWorkUpdate(o, s.progress, s.next, Sending([], false));
    case SendChunk(w, payload) =>
      var j := s.workers[w].value;
      var bytes := s.progress[j].bytes;
      FilesWorkUpdate(o, s.progress, j, Sending(bytes + payload, true));
      WireWorkAppend(s.wire, Chunk(o, FileOf(o, j), bytes, payload));
  }

  lemma WorkShrinks(c: Config, o: Offer, s: System, a: Action)
    requires AllFiles(c, o, s) && WorkerBook(s) && Enabled(o, s, a)
    ensures |Next(c, o, s, a).progress| == |Jobs(o)| && Work(o, Next(c, o, s, a)) < Work(o, s)
  {
    hide Step, FileState, Frames, Benign, FilesWork, FileWork, MoreToSend;
    match a
    case TakeJob(w) => ReadingShrinks(c, o, s, a);
    case SendChunk(w, payload) => ReadingShrinks(c, o, s, a);
    case SendComplete(w, changed) =>
      var j := s.workers[w].value;
      LeavingShrinks(c, o, s, Next(c, o, s, a), w, Completion(c, o, FileOf(o, j), s.progress[j].bytes, changed));
    case SendFailure(w, reason) =>
      LeavingShrinks(c, o, s, Next(c, o, s, a), w, FileFailed(o.id, FileOf(o, s.workers[w].value).path, reason));
    case Deliver(e) => RepliesAreFew(c, o, s.receiver, s.wire[0], e);
    case TakeResult =>
    case SendBatch => WireWorkAppend(s.wire, BatchComplete(o.id));
  }

  ghost predicate CanStep(o: Offer, s: System) { exists a :: Enabled(o, s, a) }

  /** Until the verdict is in, some step is possible: no schedule gets stuck. */
  lemma NeverStuck(c: Config, o: Offer, listed: set<string>, base: Disk, s: System)
    requires Setting(c, o, listed, base) && Inv(c, o, base, s) && s.verdict == None
    requires Jobs(o) == [] || s.workers != []
    ensures CanStep(o, s)
  {
    hide Setting, Finished, Sound, Books, Carries, Frames, UniqueKeys;
    SettingIsUnique(c, o, listed, base);
    var fine := Env(true, None, Written(0, false), true, true, true, true, true, true, true, true);
    if s.wire != [] {
      assert Enabled(o, s, Deliver(fine));
    } else if s.back != [] {
      BackIsTaken(c, o, base, s);
    } else if w: nat :| w < |s.workers| && s.workers[w].Some? {
      WorkerCanStep(c, o, listed, base, s, w);
    } else if s.next < |s.progress| {
      assert Enabled(o, s, TakeJob(0));
    } else {
      assert AllIdle(s);
      AllAreCounted(c, o, base, s);
      assert Enabled(o, s, SendBatch);
    }
  }

  lemma BackIsTaken(c: Config, o: Offer, base: Disk, s: System)
    requires UniqueKeys(c.fold, o.entries) && Inv(c, o, base, s) && s.verdict == None && s.back != []
    ensures Enabled(o, s, TakeResult)
  {
    hide Finished, Sound, AllFiles, WorkerBook, UniqueKeys;
    CountersMeetTheFileCount(c, o, s.receiver);
    if !s.batchSent {
      ResultsNameFiles(s.back);
    }
  }

  lemma WorkerCanStep(c: Config, o: Offer, listed: set<string>, base: Disk, s: System, w: nat)
    requires Setting(c, o, listed, base) && Inv(c, o, base, s) && w < |s.workers| && s.workers[w].Some?
    ensures CanStep(o, s)
  {
    hide Setting, Finished, Sound, Books, Carries, Frames, WireShape, Counted;
    SizesAreNatural(c, o, listed, base);
    var j := s.workers[w].value;
    var entry, p := FileOf(o, j), s.progress[j];
    assert FileState(c, o, entry, p, Frames(s.wire, entry.path), s.receiver);
    if MoreToSend(entry, p) {
      assert Enabled(o, s, SendChunk(w, seq(ChunkBytes(entry, |p.bytes|), _ => 0)));
    } else {
      assert Enabled(o, s, SendComplete(w, false));
    }
  }

  lemma AllAreCounted(c: Config, o: Offer, base: Disk, s: System)
    requires UniqueKeys(c.fold, o.entries) && Inv(c, o, base, s) && s.verdict == None
    requires s.wire == [] && s.back == [] && AllIdle(s) && s.next == |s.progress|
    ensures s.succeeded + s.failed == FileCount(o) && !s.batchSent
  {
    hide Finished, Sound, UniqueKeys, Carries;
    forall key | key in FileKeys(c, o) ensures key in s.receiver.outcomes {
      var i: nat :| i < |o.entries| && o.entries[i].kind == FileKind && Key(c.fold, o.entries[i].path) == key;
      assert i in Jobs(o);
      var j: nat :| j < |Jobs(o)| && Jobs(o)[j] == i;
      assert FileState(c, o, FileOf(o, j), s.progress[j], Frames(s.wire, FileOf(o, j).path), s.receiver);
      assert Some(j) !in s.workers;
    }
    CountersMeetTheFileCount(c, o, s.receiver);
  }

  /** A maximal run, one whose last state allows no further step, always ends with the
      right verdict; and no run takes more steps than there is work at the start. */
  lemma MaximalRunsEndWithTheVerdict(c: Config, o: Offer, listed: set<string>, base: Disk, r: State, workers: nat, actions: seq<Action>)
    requires Begun(c, o, listed, base, r) && (Jobs(o) == [] || workers > 0)
    ensures var s := After(c, o, Start(o, workers, r), actions);
            !CanStep(o, s) ==> s.verdict == Some(s.failed == 0) && s.succeeded + s.failed == FileCount(o)
  {
    hide Setting, Inv, After, Books, Sound, Finished, FolderDestinations, ParentsFirst, Next;
    SummariesAgree(c, o, listed, base, r, workers, actions);
    ReachableHasInv(c, o, listed, base, r, workers, actions);
    WorkersStay(c, o, Start(o, workers, r), actions);
    var s := After(c, o, Start(o, workers, r), actions);
    if s.verdict == None {
      NeverStuck(c, o, listed, base, s);
    }
  }

  lemma SameNumberOfWorkers(c: Config, o: Offer, s: System, a: Action)
    ensures |Next(c, o, s, a).workers| == |s.workers|
  {
    hide Step, Completion, Jobs, MoreToSend;
  }

  lemma {:induction false} WorkersStay(c: Config, o: Offer, s: System, actions: seq<Action>)
    ensures |After(c, o, s, actions).workers| == |s.workers|
    decreases |actions|
  {
    hide Step;
    if actions != [] {
      SameNumberOfWorkers(c, o, s, actions[0]);
      WorkersStay(c, o, Next(c, o, s, actions[0]), actions[1..]);
    }
  }

  ghost predicate AllEnabled(c: Config, o: Offer, s: System, actions: seq<Action>)
    decreases |actions|
  {
    actions == [] || (Enabled(o, s, actions[0]) && AllEnabled(c, o, Next(c, o, s, actions[0]), actions[1..]))
  }

  lemma {:induction false} RunIsBounded(c: Config, o: Offer, listed: set<string>, base: Disk, s: System, actions: seq<Action>)
    requires Setting(c, o, listed, base) && Inv(c, o, base, s) && AllEnabled(c, o, s, actions)
    ensures |s.progress| == |Jobs(o)| && |actions| <= Work(o, s)
    decreases |actions|
  {
    hide Setting, Inv, Next, Work, Enabled;
    InvHasFiles(c, o, base, s);
    if actions == [] {
      SizesAreNatural(c, o, listed, base);
      FilesWorkIsNatural(c, o, s, |s.progress|);
      assert s.progress[..|s.progress|] == s.progress;
      WorkIsNatural(o, s);
    } else {
      EveryStepShrinks(c, o, listed, base, s, actions[0]);
      NextKeepsInv(c, o, listed, base, s, actions[0]);
      RunIsBounded(c, o, listed, base, Next(c, o, s, actions[0]), actions[1..]);
    }
  }

  /** No run takes more steps than there is work at the start. */
  lemma RunsAreBounded(c: Config, o: Offer, listed: set<string>, base: Disk, r: State, workers: nat, actions: seq<Action>)
    requires Begun(c, o, listed, base, r) && AllEnabled(c, o, Start(o, workers, r), actions)
    ensures |actions| <= Work(o, Start(o, workers, r))
  {
    hide Setting, Inv, Next, Work, Enabled, AllEnabled, FolderDestinations, ParentsFirst, Sound, Books;
    PreparedIsSound(c, o, listed, base, r.disk, r.created);
    StartHasInv(c, o, listed, base, r, workers);
    RunIsBounded(c, o, listed, base, Start(o, workers, r), actions);
  }
}
