/** Exactly one outcome per manifest file, for every sequence of peer frames. */
module Outcomes {
  import opened Names
  import opened Manifest
  import opened Validation
  import opened Destinations
  import opened Disk
  import opened Staging
  import opened Receiver

  ghost function FileKeys(c: Config, o: Offer): set<Path> {
    set i: nat | i < |o.entries| && o.entries[i].kind == FileKind :: Key(c.fold, o.entries[i].path)
  }

  /** An open stream belongs to a manifest file that has no outcome yet. */
  ghost predicate StreamBook(c: Config, o: Offer, s: State, key: Path, stream: Stream) {
    && stream.entry < |o.entries|
    && o.entries[stream.entry].kind == FileKind
    && Key(c.fold, o.entries[stream.entry].path) == key
    && key !in s.outcomes
    && |stream.data| <= o.entries[stream.entry].size
    && (stream.temp == None ==> stream.writeFailure)
    && (stream.destinationFailed ==> stream.writeFailure)
  }

  /** The receiver's books: open streams and recorded outcomes are disjoint sets of
      file keys, and the two counters add up to the number of outcomes. */
  ghost predicate Books(c: Config, o: Offer, s: State) {
    && (forall key | key in s.streams :: StreamBook(c, o, s, key, s.streams[key]))
    && s.outcomes <= FileKeys(c, o)
    && s.completed + s.failed == |s.outcomes|
  }

  lemma FileHasKey(c: Config, o: Offer, i: nat)
    requires i < |o.entries| && o.entries[i].kind == FileKind
    ensures Key(c.fold, o.entries[i].path) in FileKeys(c, o)
  {
  }

  lemma StartKeepsBooks(c: Config, o: Offer, s: State, key: Path, i: nat, e: Env)
    requires Books(c, o, s) && key !in s.streams && key !in s.outcomes
    requires i < |o.entries| && o.entries[i].kind == FileKind && Key(c.fold, o.entries[i].path) == key && 0 <= o.entries[i].size
    ensures Books(c, o, StartStream(c, s, key, i, e))
    ensures key in StartStream(c, s, key, i, e).streams && StartStream(c, s, key, i, e).streams[key].data == []
    ensures StartStream(c, s, key, i, e).streams[key].entry == i
    ensures StartStream(c, s, key, i, e).streams.Keys == s.streams.Keys + {key}
    ensures forall k | k in s.streams :: StartStream(c, s, key, i, e).streams[k] == s.streams[k]
  {
    hide FileKeys, NewTemp, NewTempDisk;
    var s' := StartStream(c, s, key, i, e);
    forall k | k in s'.streams ensures StreamBook(c, o, s', k, s'.streams[k]) {
      if k != key {
        assert StreamBook(c, o, s, k, s.streams[k]);
      }
    }
  }

  lemma WriteKeepsBooks(c: Config, o: Offer, s: State, key: Path, bytes: seq<Byte>, w: Written)
    requires Books(c, o, s) && key in s.streams
    requires |s.streams[key].data| + |bytes| <= o.entries[s.streams[key].entry].size
    ensures Books(c, o, WriteChunk(s, key, bytes, w))
    ensures var s' := WriteChunk(s, key, bytes, w);
            s'.streams.Keys == s.streams.Keys && s'.streams[key].data == s.streams[key].data + bytes
  {
    hide FileKeys;
    var s' := WriteChunk(s, key, bytes, w);
    forall k | k in s'.streams ensures StreamBook(c, o, s', k, s'.streams[k]) {
      assert StreamBook(c, o, s, k, s.streams[k]);
    }
  }

  lemma FailKeepsBooks(c: Config, o: Offer, s: State, path: Path, e: Env)
    requires Books(c, o, s) && Key(c.fold, path) in FileKeys(c, o) && Key(c.fold, path) !in s.outcomes
    ensures Books(c, o, FailFile(c, s, path, e).state)
  {
    hide FileKeys, RemoveStaging;
    var s' := FailFile(c, s, path, e).state;
    forall k | k in s'.streams ensures StreamBook(c, o, s', k, s'.streams[k]) {
      assert StreamBook(c, o, s, k, s.streams[k]);
    }
  }

  lemma PublishKeepsBooks(c: Config, o: Offer, s: State, key: Path, final: Path, i: nat)
    requires Books(c, o, s) && key in FileKeys(c, o)
    requires key in s.streams && s.streams[key].temp.Some? && s.streams[key].temp.value in s.disk
    ensures Books(c, o, Publish(s, key, final, i))
  {
    hide FileKeys;
    var s' := Publish(s, key, final, i);
    assert StreamBook(c, o, s, key, s.streams[key]);
    forall k | k in s'.streams ensures StreamBook(c, o, s', k, s'.streams[k]) {
      assert StreamBook(c, o, s, k, s.streams[k]);
    }
  }

  lemma EmptiedBooks(c: Config, o: Offer, s: State)
    requires Books(c, o, s)
    ensures Books(c, o, RemoveIncomingFiles(c, s)) && Books(c, o, RemoveIncomingFiles(c, s).(live := false))
  {
    hide FileKeys, RemoveStaging, RemoveCreated, Temps;
  }

  /** The entry found by exact path and the stream found by key are the same file. */
  lemma SameEntry(c: Config, o: Offer, s: State, key: Path, i: nat)
    requires UniqueKeys(c.fold, o.entries) && Books(c, o, s) && key in s.streams
    requires i < |o.entries| && Key(c.fold, o.entries[i].path) == key
    ensures s.streams[key].entry == i && StreamBook(c, o, s, key, s.streams[key])
  {
    assert StreamBook(c, o, s, key, s.streams[key]);
  }

  lemma ContentKeepsBooks(c: Config, o: Offer, s: State, m: Message, e: Env)
    requires UniqueKeys(c.fold, o.entries) && Books(c, o, s) && m.Content?
    ensures Books(c, o, ReceiveContent(c, o, s, m, e).state)
  {
    hide StartStream, WriteChunk, FileKeys, RemoveIncomingFiles, UniqueKeys, Books;
    var found := FindFile(o.entries, m.path);
    if found.Some? {
      var i := found.value;
      var entry := o.entries[i];
      var key := Key(c.fold, entry.path);
      if 0 <= m.size && 0 <= m.offset && m.size <= entry.size - m.offset && key !in s.outcomes && (key in s.streams || m.offset == 0) {
        var current := s;
        if key !in s.streams {
          StartKeepsBooks(c, o, s, key, i, e);
          current := StartStream(c, s, key, i, e);
        }
        EmptiedBooks(c, o, current);
        if |current.streams[key].data| == m.offset && m.size <= |m.payload| {
          SameEntry(c, o, current, key, i);
          WriteKeepsBooks(c, o, current, key, m.payload[..m.size], e.write);
        }
      }
    }
  }

  lemma CloseKeepsBooks(c: Config, o: Offer, s: State, key: Path, closed: Stream)
    requires Books(c, o, s) && key in s.streams
    requires closed == s.streams[key].(writeFailure := closed.writeFailure)
    requires s.streams[key].writeFailure ==> closed.writeFailure
    ensures Books(c, o, s.(streams := s.streams[key := closed]))
  {
    hide FileKeys;
    var s' := s.(streams := s.streams[key := closed]);
    forall k | k in s'.streams ensures StreamBook(c, o, s', k, s'.streams[k]) {
      assert StreamBook(c, o, s, k, s.streams[k]);
    }
  }

  lemma BooksIgnoreTheDisk(c: Config, o: Offer, s: State, disk: Disk)
    requires Books(c, o, s)
    ensures Books(c, o, s.(disk := disk))
  {
    hide FileKeys;
    forall k | k in s.streams ensures StreamBook(c, o, s.(disk := disk), k, s.streams[k]) {
      assert StreamBook(c, o, s, k, s.streams[k]);
    }
  }

  lemma ForgottenStreamKeepsBooks(c: Config, o: Offer, s: State, key: Path, disk: Disk)
    requires Books(c, o, s)
    ensures Books(c, o, s.(disk := disk, streams := s.streams - {key}))
  {
    hide FileKeys;
    var s' := s.(disk := disk, streams := s.streams - {key});
    forall k | k in s'.streams ensures StreamBook(c, o, s', k, s'.streams[k]) {
      assert StreamBook(c, o, s, k, s.streams[k]);
    }
  }

  lemma FinishKeepsBooks(c: Config, o: Offer, s: State, key: Path, i: nat, e: Env)
    requires Books(c, o, s) && key in s.streams && key !in s.outcomes
    requires i < |o.entries| && o.entries[i].kind == FileKind && Key(c.fold, o.entries[i].path) == key
    ensures Books(c, o, FinishFile(c, o, s, key, i, e).state)
  {
    hide FileKeys, Books, RemoveIncomingFiles, FailFile;
    var final := At(c.fold, o, i);
    var path := o.entries[i].path;
    FileHasKey(c, o, i);
    EmptiedBooks(c, o, s);
    var made := MakeParents(s.disk, final);
    if made.Some? {
      BooksIgnoreTheDisk(c, o, s, made.value);
      var parented := s.(disk := made.value);
      FailKeepsBooks(c, o, parented, path, e);
      var temp := s.streams[key].temp;
      if temp.Some? && temp.value in parented.disk {
        PublishKeepsBooks(c, o, parented, key, final, i);
        var moved := Publish(parented, key, final, i);
        ForgottenStreamKeepsBooks(c, o, parented, key, Remove(moved.disk, final));
        FailKeepsBooks(c, o, parented.(disk := Remove(moved.disk, final), streams := moved.streams), path, e);
      }
    }
  }

  lemma CompleteKeepsBooks(c: Config, o: Offer, s: State, m: Message, e: Env)
    requires UniqueKeys(c.fold, o.entries) && Books(c, o, s) && m.Complete?
    ensures Books(c, o, CompleteFile(c, o, s, m, e).state)
  {
    hide FileKeys, Books, FinishFile, FailFile, Verified, UniqueKeys;
    var key := Key(c.fold, m.path);
    var found := FindFile(o.entries, m.path);
    if found.Some? && key in s.streams {
      var i, stream := found.value, s.streams[key];
      SameEntry(c, o, s, key, i);
      var closed := stream.(writeFailure := stream.writeFailure || (stream.temp.Some? && !(e.syncOk && e.closeOk)));
      CloseKeepsBooks(c, o, s, key, closed);
      var s' := s.(streams := s.streams[key := closed]);
      FileHasKey(c, o, i);
      FailKeepsBooks(c, o, s', m.path, e);
      FinishKeepsBooks(c, o, s', key, i, e);
    }
  }

  /** Every frame, with every answer of the system, keeps the books, also when it
      ends the session. */
  lemma StepKeepsBooks(c: Config, o: Offer, s: State, m: Message, e: Env)
    requires UniqueKeys(c.fold, o.entries) && Books(c, o, s)
    ensures Books(c, o, Step(c, o, s, m, e).state)
  {
    hide FileKeys, Books, FailFile, RemoveIncomingFiles, UniqueKeys, RemoveStaging;
    match m {
      case Content(_, _, _, _, _) => ContentKeepsBooks(c, o, s, m, e);
      case Complete(_, _, _, _, _, _) => CompleteKeepsBooks(c, o, s, m, e);
      case FileFailed(_, path, _) =>
        var found := FindFile(o.entries, path);
        if found.Some? && Key(c.fold, path) !in s.outcomes {
          FileHasKey(c, o, found.value);
          FailKeepsBooks(c, o, s, path, e);
        }
      case BatchComplete(_) =>
        BooksIgnoreTheDisk(c, o, s, RemoveStaging(c, s.disk));
        BooksIgnoreLiveness(c, o, s.(disk := RemoveStaging(c, s.disk)));
      case Cancel(_) => EmptiedBooks(c, o, s);
      case Abort(_) => EmptiedBooks(c, o, s);
    }
  }

  lemma BooksIgnoreLiveness(c: Config, o: Offer, s: State)
    requires Books(c, o, s)
    ensures Books(c, o, s.(live := false))
  {
    hide FileKeys;
    forall k | k in s.streams ensures StreamBook(c, o, s.(live := false), k, s.streams[k]) {
      assert StreamBook(c, o, s, k, s.streams[k]);
    }
  }

  lemma {:induction false} RunKeepsBooks(c: Config, o: Offer, s: State, frames: seq<(Message, Env)>)
    requires UniqueKeys(c.fold, o.entries) && Books(c, o, s)
    ensures Books(c, o, Run(c, o, s, frames).state)
    decreases |frames|
  {
    hide FileKeys, Books, RemoveIncomingFiles, UniqueKeys, Step;
    EmptiedBooks(c, o, s);
    if frames != [] {
      StepKeepsBooks(c, o, s, frames[0].0, frames[0].1);
      var outcome := Step(c, o, s, frames[0].0, frames[0].1);
      EmptiedBooks(c, o, outcome.state);
      if !outcome.error {
        RunKeepsBooks(c, o, outcome.state, frames[1..]);
      }
    }
  }

  // ---- an accepted batch ----

  ghost function KeysUpTo(c: Config, o: Offer, n: nat): set<Path> {
    set i: nat | i < n && i < |o.entries| && o.entries[i].kind == FileKind :: Key(c.fold, o.entries[i].path)
  }

  lemma {:induction false} KeysAreCounted(c: Config, o: Offer, n: nat)
    requires UniqueKeys(c.fold, o.entries) && n <= |o.entries|
    ensures |KeysUpTo(c, o, n)| == CountKind(FileKind, o.entries[..n])
    decreases n
  {
    if n > 0 {
      KeysAreCounted(c, o, n - 1);
      assert o.entries[..n][..n - 1] == o.entries[..n - 1];
      var last := Key(c.fold, o.entries[n - 1].path);
      if o.entries[n - 1].kind == FileKind {
        assert last !in KeysUpTo(c, o, n - 1);
        assert KeysUpTo(c, o, n) == KeysUpTo(c, o, n - 1) + {last};
      } else {
        assert KeysUpTo(c, o, n) == KeysUpTo(c, o, n - 1);
      }
    }
  }

  lemma FileKeysAreCounted(c: Config, o: Offer)
    requires UniqueKeys(c.fold, o.entries)
    ensures |FileKeys(c, o)| == FileCount(o)
  {
    KeysAreCounted(c, o, |o.entries|);
    assert o.entries[..|o.entries|] == o.entries;
    assert KeysUpTo(c, o, |o.entries|) == FileKeys(c, o);
  }

  lemma SubsetOfSameSize(a: set<Path>, b: set<Path>)
    requires a <= b && |a| == |b|
    ensures a == b
  {
    assert |b| == |a| + |b - a|;
    assert b - a == {};
  }

  /** The counters reach the file count exactly when every file has its outcome, and
      then no stream is open. */
  lemma CountersMeetTheFileCount(c: Config, o: Offer, s: State)
    requires UniqueKeys(c.fold, o.entries) && Books(c, o, s)
    ensures s.completed + s.failed <= FileCount(o)
    ensures s.completed + s.failed == FileCount(o) <==> s.outcomes == FileKeys(c, o)
    ensures s.outcomes == FileKeys(c, o) ==> s.streams == map[]
  {
    FileKeysAreCounted(c, o);
    assert |FileKeys(c, o)| == |s.outcomes| + |FileKeys(c, o) - s.outcomes|;
    if s.completed + s.failed == FileCount(o) {
      SubsetOfSameSize(s.outcomes, FileKeys(c, o));
    }
    if s.outcomes == FileKeys(c, o) {
      forall key | key in s.streams ensures false {
        assert StreamBook(c, o, s, key, s.streams[key]);
        FileHasKey(c, o, s.streams[key].entry);
      }
    }
  }

  /** A batch is accepted only when every manifest file has exactly one outcome. */
  lemma AcceptedBatchIsComplete(c: Config, o: Offer, s: State, m: Message, e: Env)
    requires UniqueKeys(c.fold, o.entries) && Books(c, o, s) && m.BatchComplete?
    ensures var r := Step(c, o, s, m, e);
            !r.error ==> s.outcomes == FileKeys(c, o) && s.streams == map[] && r.replies == [BatchResult(s.failed == 0)]
  {
    CountersMeetTheFileCount(c, o, s);
  }
}
