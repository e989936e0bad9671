/** The receiving peer's state machine for one accepted offer, as a function from
    state, frame and operating-system answers to the next state. */
module Receiver {
  import opened Names
  import opened Manifest
  import opened Validation
  import opened Destinations
  import opened Disk
  import opened Staging

  const STREAM_CHUNK_BYTES := 1024 * 1024

  /** The fold and the digest stay opaque; `hash` yields lower-case hexadecimal. */
  datatype Config = Config(fold: Fold, hash: seq<Byte> -> string)

  /** One frame from the peer, with as much of a chunk's payload as the wire delivered. */
  datatype Message =
    | Content(offer: string, path: Path, size: int, offset: int, payload: seq<Byte>)
    | Complete(offer: string, path: Path, size: int, digest: string, success: Option<bool>, reason: string)
    | FileFailed(offer: string, path: Path, reason: string)
    | BatchComplete(offer: string)
    | Cancel(offer: string)
    | Abort(offer: string)

  /** A file write: how much was taken, and whether an error came back. */
  datatype Written = Written(accepted: nat, failed: bool)

  /** The operating system's answers during one frame. */
  datatype Env = Env(
    stagingUsable: bool,
    tempName: Option<string>,
    write: Written,
    syncOk: bool,
    closeOk: bool,
    pathSafe: bool,
    parentsOk: bool,
    publishOk: bool,
    metadataOk: bool,
    foldersSafe: bool,
    sendOk: bool)

  datatype Reply =
    | FileResult(path: Path, success: bool)
    | BatchResult(success: bool)
    | CanceledResult

  /** One file being received. `data` is what the digest has absorbed; the bytes that
      reached the disk are the content of the temporary file. */
  datatype Stream = Stream(
    entry: nat,
    temp: Option<Path>,
    data: seq<Byte>,
    destinationFailed: bool,
    writeFailure: bool)

  datatype State = State(
    live: bool,
    accepted: bool,
    disk: Disk,
    streams: map<Path, Stream>,
    outcomes: set<Path>,
    completed: nat,
    failed: nat,
    created: seq<Path>,
    published: map<Path, nat>)

  datatype Outcome = Outcome(state: State, replies: seq<Reply>, error: bool)

  function Refuse(s: State): Outcome { Outcome(s, [], true) }

  function Proceed(s: State): Outcome { Outcome(s, [], false) }

  /** A reply that cannot be sent ends the session. */
  function Answer(s: State, reply: Reply, e: Env): Outcome {
    if e.sendOk then Outcome(s, [reply], false) else Refuse(s)
  }

  // ---- pieces of state change ----

  /** The file entry with exactly this path. */
  function FindFile(entries: seq<Entry>, path: Path): (found: Option<nat>)
    ensures found.Some? ==> found.value < |entries| && entries[found.value].kind == FileKind && entries[found.value].path == path
    ensures found.None? ==> forall i | 0 <= i < |entries| :: !(entries[i].kind == FileKind && entries[i].path == path)
  {
    if entries == [] then None
    else if entries[0].kind == FileKind && entries[0].path == path then Some(0)
    else
      match FindFile(entries[1..], path)
      case None => None
      case Some(i) =>
        assert entries[1..][i] == entries[i + 1];
        Some(i + 1)
  }

  function TempPath(c: Config, name: string): Path { StagingPath(c.fold) + [c.fold(name)] }

  function RemoveStaging(c: Config, disk: Disk): Disk { Remove(disk, StagingPath(c.fold)) }

  /** The staging folder is there, or can be made. */
  predicate StagingAvailable(c: Config, disk: Disk, e: Env) {
    e.stagingUsable && (StagingPath(c.fold) in disk ==> disk[StagingPath(c.fold)] == Folder)
  }

  /** The temporary file a new stream gets: none when the staging area or a fresh name
      cannot be had. */
  function NewTemp(c: Config, disk: Disk, e: Env): Option<Path> {
    if !StagingAvailable(c, disk, e) || e.tempName == None || TempPath(c, e.tempName.value) in disk then None
    else Some(TempPath(c, e.tempName.value))
  }

  function NewTempDisk(c: Config, disk: Disk, e: Env): Disk {
    var staged := if StagingAvailable(c, disk, e) then disk[StagingPath(c.fold) := Folder] else disk;
    match NewTemp(c, disk, e)
    case None => staged
    case Some(temp) => staged[temp := File([])]
  }

  /** Opens a stream; without a temporary file that is recorded as a write failure,
      and the stream is still drained. */
  function StartStream(c: Config, s: State, key: Path, i: nat, e: Env): State {
    var temp := NewTemp(c, s.disk, e);
    s.(disk := NewTempDisk(c, s.disk, e), streams := s.streams[key := Stream(i, temp, [], false, temp == None)])
  }

  /** `recoverableWriter.Write`: the first failure is kept, later bytes are dropped. */
  function RecoverableContent(content: seq<Byte>, failed: bool, bytes: seq<Byte>, w: Written): seq<Byte> {
    if failed || w.accepted > |bytes| then content else content + bytes[..w.accepted]
  }

  function RecoverableFailure(failed: bool, bytes: seq<Byte>, w: Written): bool {
    failed || w.failed || w.accepted != |bytes|
  }

  /** One chunk goes to the temporary file, if there is one, and to the digest. */
  function WriteChunk(s: State, key: Path, bytes: seq<Byte>, w: Written): State
    requires key in s.streams
  {
    var stream := s.streams[key];
    var grown := stream.(data := stream.data + bytes);
    if stream.temp == None || bytes == [] || stream.temp.value !in s.disk || !s.disk[stream.temp.value].File? then
      s.(streams := s.streams[key := grown])
    else
      var temp := stream.temp.value;
      var failed := RecoverableFailure(stream.destinationFailed, bytes, w);
      s.(disk := s.disk[temp := File(RecoverableContent(s.disk[temp].content, stream.destinationFailed, bytes, w))],
         streams := s.streams[key := grown.(destinationFailed := failed, writeFailure := stream.writeFailure || failed)])
  }

  /** Removes a stream with its temporary file, and the staging folder once empty. */
  function DropStream(c: Config, s: State, key: Path): State {
    if key !in s.streams then s
    else
      var temp := s.streams[key].temp;
      var disk := if temp.Some? then Remove(s.disk, temp.value) else s.disk;
      s.(disk := RemoveStaging(c, disk), streams := s.streams - {key})
  }

  function FailFile(c: Config, s: State, path: Path, e: Env): Outcome {
    var key := Key(c.fold, path);
    var s' := DropStream(c, s, key);
    Answer(s'.(outcomes := s'.outcomes + {key}, failed := s'.failed + 1), FileResult(path, false), e)
  }

  function Temps(streams: map<Path, Stream>): set<Path> {
    set key | key in streams && streams[key].temp.Some? :: streams[key].temp.value
  }

  function RemoveIncomingFiles(c: Config, s: State): State {
    var disk := RemoveStaging(c, s.disk - Temps(s.streams));
    s.(disk := RemoveCreated(disk, s.created), streams := map[], created := [])
  }

  /** `os.MkdirAll`: the missing ancestors of `p` appear; a file among them refuses. */
  function MakeParents(disk: Disk, p: Path): Option<Disk> {
    if exists k | 0 <= k < |p| :: p[..k] in disk && disk[p[..k]].File? then None
    else Some(disk + Folders(set k | 0 <= k < |p| && p[..k] !in disk :: p[..k]))
  }

  /** The same character, or the two cases of one letter. */
  predicate SameLetter(a: char, b: char) {
    || a == b
    || ('A' <= a <= 'Z' && b as int == a as int + 32)
    || ('A' <= b <= 'Z' && a as int == b as int + 32)
  }

  /** Two digests that agree in every place, up to case. */
  predicate SameDigest(a: string, b: string) { |a| == |b| && forall i | 0 <= i < |a| :: SameLetter(a[i], b[i]) }

  function EqualFold(a: string, b: string): (equal: bool)
    ensures equal <==> SameDigest(a, b)
  {
    var x, y := LowerAscii(a), LowerAscii(b);
    assert |a| == |b| && x != y ==> exists i | 0 <= i < |a| :: x[i] != y[i];
    x == y
  }

  // ---- the frames ----

  predicate Addressed(o: Offer, s: State, offer: string) { s.live && s.accepted && offer == o.id }

  /** The payload, or the end of the offer where the connection ends within it. */
  function TakeBytes(c: Config, s: State, key: Path, payload: seq<Byte>, size: int, w: Written): Outcome
    requires key in s.streams && size >= 0
  {
    if |payload| < size then Refuse(RemoveIncomingFiles(c, s).(live := false))
    else Proceed(WriteChunk(s, key, payload[..size], w))
  }

  function ReceiveContent(c: Config, o: Offer, s: State, m: Message, e: Env): Outcome
    requires m.Content?
  {
    if !Addressed(o, s, m.offer) then Refuse(s)
    else
      match FindFile(o.entries, m.path)
      case None => Refuse(s)
      case Some(i) =>
        var entry := o.entries[i];
        var key := Key(c.fold, entry.path);
        if m.size < 0 || m.size > STREAM_CHUNK_BYTES || m.offset < 0 || m.offset > entry.size || m.size > entry.size - m.offset then
          Refuse(s)
        else if key in s.outcomes then Refuse(s)
        else if key !in s.streams && m.offset != 0 then Refuse(s)
        else
          var current := if key in s.streams then s else StartStream(c, s, key, i, e);
          if |current.streams[key].data| != m.offset then Refuse(current)
          else TakeBytes(c, current, key, m.payload, m.size, e.write)
  }

  predicate Verified(c: Config, entry: Entry, stream: Stream, m: Message)
    requires m.Complete?
  {
    && |m.digest| == 64
    && EqualFold(m.digest, c.hash(stream.data))
    && EqualFold(entry.digest, c.hash(stream.data))
    && m.success != Some(false)
  }

  /** The temporary file moves to its final path, or nothing changes. */
  function Publish(s: State, key: Path, final: Path, i: nat): State
    requires key in s.streams && s.streams[key].temp.Some? && s.streams[key].temp.value in s.disk
  {
    var temp := s.streams[key].temp.value;
    s.(disk := (s.disk - {temp})[final := s.disk[temp]],
       streams := s.streams - {key},
       outcomes := s.outcomes + {key},
       completed := s.completed + 1,
       published := s.published[final := i])
  }

  function FinishFile(c: Config, o: Offer, s: State, key: Path, i: nat, e: Env): Outcome
    requires i < |o.entries| && key in s.streams
  {
    var final := At(c.fold, o, i);
    var stream := s.streams[key];
    if !e.pathSafe then Refuse(RemoveIncomingFiles(c, s))
    else if !e.parentsOk || MakeParents(s.disk, final) == None then Refuse(s)
    else
      var parented := s.(disk := MakeParents(s.disk, final).value);
      if !e.publishOk || final in parented.disk || stream.temp == None || stream.temp.value !in parented.disk then
        FailFile(c, parented, o.entries[i].path, e)
      else if !e.metadataOk then
        var moved := Publish(parented, key, final, i);
        FailFile(c, parented.(disk := Remove(moved.disk, final), streams := moved.streams), o.entries[i].path, e)
      else
        Answer(Publish(parented, key, final, i), FileResult(o.entries[i].path, true), e)
  }

  function CompleteFile(c: Config, o: Offer, s: State, m: Message, e: Env): Outcome
    requires m.Complete?
  {
    if !Addressed(o, s, m.offer) then Refuse(s)
    else
      var key := Key(c.fold, m.path);
      match FindFile(o.entries, m.path)
      case None => Refuse(s)
      case Some(i) =>
        if key !in s.streams || m.size != o.entries[i].size || |s.streams[key].data| != o.entries[i].size then Refuse(s)
        else
          var stream := s.streams[key];
          var closed := stream.(writeFailure := stream.writeFailure || (stream.temp.Some? && !(e.syncOk && e.closeOk)));
          var s' := s.(streams := s.streams[key := closed]);
          if closed.writeFailure || !Verified(c, o.entries[i], closed, m) then FailFile(c, s', m.path, e)
          else FinishFile(c, o, s', key, i, e)
  }

  function ReceiveFileFailure(c: Config, o: Offer, s: State, m: Message, e: Env): Outcome
    requires m.FileFailed?
  {
    if !Addressed(o, s, m.offer) || m.path == [] || m.reason == "" then Refuse(s)
    else if FindFile(o.entries, m.path) == None then Refuse(s)
    else if Key(c.fold, m.path) in s.outcomes then Refuse(s)
    else FailFile(c, s, m.path, e)
  }

  function FileCount(o: Offer): nat { CountKind(FileKind, o.entries) }

  function CompleteBatch(c: Config, o: Offer, s: State, m: Message, e: Env): Outcome
    requires m.BatchComplete?
  {
    if !Addressed(o, s, m.offer) || s.completed + s.failed != FileCount(o) then Refuse(s)
    else if !e.foldersSafe then Refuse(s)
    else
      var s' := s.(disk := RemoveStaging(c, s.disk));
      if e.sendOk then Outcome(s'.(live := false), [BatchResult(s.failed == 0)], false) else Refuse(s')
  }

  function CancelIncoming(c: Config, o: Offer, s: State, m: Message, e: Env): Outcome
    requires m.Cancel?
  {
    if !Addressed(o, s, m.offer) then Proceed(s)
    else
      var s' := RemoveIncomingFiles(c, s);
      if e.sendOk then Outcome(s'.(live := false), [CanceledResult], false) else Refuse(s')
  }

  function AbortIncoming(c: Config, o: Offer, s: State, m: Message): Outcome
    requires m.Abort?
  {
    if !s.live || m.offer != o.id then Proceed(s)
    else Proceed(RemoveIncomingFiles(c, s).(live := false))
  }

  function Step(c: Config, o: Offer, s: State, m: Message, e: Env): Outcome {
    match m
    case Content(_, _, _, _, _) => ReceiveContent(c, o, s, m, e)
    case Complete(_, _, _, _, _, _) => CompleteFile(c, o, s, m, e)
    case FileFailed(_, _, _) => ReceiveFileFailure(c, o, s, m, e)
    case BatchComplete(_) => CompleteBatch(c, o, s, m, e)
    case Cancel(_) => CancelIncoming(c, o, s, m, e)
    case Abort(_) => AbortIncoming(c, o, s, m)
  }

  /** What the end of the session does to an offer still in progress. */
  function EndSession(c: Config, s: State): State {
    if s.live then RemoveIncomingFiles(c, s).(live := false) else s
  }

  /** A whole session: frames in order, ended by the first error or by the peer. Every
      reply is kept, and whether an error ended it. */
  function Run(c: Config, o: Offer, s: State, frames: seq<(Message, Env)>): Outcome
    decreases |frames|
  {
    if frames == [] then Outcome(EndSession(c, s), [], false)
    else
      var first := Step(c, o, s, frames[0].0, frames[0].1);
      if first.error then Outcome(EndSession(c, first.state), first.replies, true)
      else
        var later := Run(c, o, first.state, frames[1..]);
        Outcome(later.state, first.replies + later.replies, later.error)
  }
}
