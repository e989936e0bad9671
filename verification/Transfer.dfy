/** One accepted offer between two honest peers: workers that interleave bounded
    chunks, a first-in first-out wire each way, the receiver's state machine, and the
    sender's result loop. No cancellation, and no answer of the operating system that
    ends the session. */
module Transfer {
  import opened Names
  import opened Manifest
  import opened Validation
  import opened Destinations
  import opened Disk
  import opened Receiver

  const REASON_OFFER_CANCELED := "Transfer Offer canceled"
  const REASON_SOURCE_CHANGED := "source changed after approval"

  /** What the sender has read of one file so far. The bytes are whatever the source
      held when each chunk was read. */
  datatype Progress =
    | Queued
    | Sending(bytes: seq<Byte>, begun: bool)
    | Terminated(bytes: seq<Byte>)

  datatype System = System(
    workers: seq<Option<nat>>,
    next: nat,
    progress: seq<Progress>,
    wire: seq<Message>,
    receiver: State,
    back: seq<Reply>,
    succeeded: nat,
    failed: nat,
    batchSent: bool,
    verdict: Option<bool>,
    refused: bool)

  datatype Action =
    | TakeJob(w: nat)
    | SendChunk(w: nat, payload: seq<Byte>)
    | SendComplete(w: nat, changed: bool)
    | SendFailure(w: nat, reason: string)
    | Deliver(e: Env)
    | TakeResult
    | SendBatch

  /** The jobs: the manifest's file entries in order. */
  function Files(entries: seq<Entry>, n: nat): (files: seq<nat>)
    requires n <= |entries|
    ensures forall j | 0 <= j < |files| :: files[j] < n && entries[files[j]].kind == FileKind
    ensures forall j, k | 0 <= j < k < |files| :: files[j] < files[k]
    ensures forall i: nat | i < n && entries[i].kind == FileKind :: i in files
    ensures |files| == CountKind(FileKind, entries[..n])
  {
    if n == 0 then []
    else
      assert entries[..n][..n - 1] == entries[..n - 1];
      Files(entries, n - 1) + (if entries[n - 1].kind == FileKind then [n - 1] else [])
  }

  function Jobs(o: Offer): seq<nat> { Files(o.entries, |o.entries|) }

  function FileOf(o: Offer, j: nat): Entry
    requires j < |Jobs(o)|
  {
    o.entries[Jobs(o)[j]]
  }

  /** The next chunk's length: the buffer, or what is left of the file. */
  function ChunkBytes(entry: Entry, offset: nat): (size: int)
    ensures size <= STREAM_CHUNK_BYTES && size <= entry.size - offset
    ensures size == STREAM_CHUNK_BYTES || size == entry.size - offset
  {
    if entry.size - offset < STREAM_CHUNK_BYTES then entry.size - offset else STREAM_CHUNK_BYTES
  }

  /** The chunk loop goes on; an empty file still sends one empty chunk. */
  predicate MoreToSend(entry: Entry, p: Progress) {
    p.Sending? && (|p.bytes| < entry.size || (entry.size == 0 && !p.begun))
  }

  predicate Working(o: Offer, s: System, w: nat) {
    w < |s.workers| && s.workers[w].Some? && s.workers[w].value < |Jobs(o)| == |s.progress|
    && s.progress[s.workers[w].value].Sending?
  }

  /** The system answers nothing that ends the session. */
  predicate Benign(e: Env) { e.pathSafe && e.parentsOk && e.foldersSafe && e.sendOk }

  predicate AllIdle(s: System) { forall w | 0 <= w < |s.workers| :: s.workers[w] == None }

  predicate Enabled(o: Offer, s: System, a: Action) {
    && !s.refused
    && match a
       case TakeJob(w) => w < |s.workers| && s.workers[w] == None && s.next < |s.progress|
       case SendChunk(w, payload) =>
         Working(o, s, w)
         && (var j := s.workers[w].value;
             MoreToSend(FileOf(o, j), s.progress[j]) && |payload| == ChunkBytes(FileOf(o, j), |s.progress[j].bytes|))
       case SendComplete(w, _) =>
         Working(o, s, w) && !MoreToSend(FileOf(o, s.workers[w].value), s.progress[s.workers[w].value])
       case SendFailure(w, reason) => Working(o, s, w) && reason != "" && reason != REASON_OFFER_CANCELED
       case Deliver(e) => s.wire != [] && Benign(e)
       case TakeResult =>
         s.back != [] && (s.succeeded + s.failed < FileCount(o) || (s.batchSent && s.verdict == None))
       case SendBatch =>
         s.succeeded + s.failed == FileCount(o) && AllIdle(s) && s.next == |s.progress| && !s.batchSent
  }

  function Chunk(o: Offer, entry: Entry, bytes: seq<Byte>, payload: seq<Byte>): Message {
    Content(o.id, entry.path, |payload|, |bytes|, payload)
  }

  /** The completion frame: the digest of what was read, and a failure mark when the
      source changed or no longer has the approved digest. */
  function Completion(c: Config, o: Offer, entry: Entry, bytes: seq<Byte>, changed: bool): Message {
    if changed || !EqualFold(c.hash(bytes), entry.digest) then
      Complete(o.id, entry.path, entry.size, c.hash(bytes), Some(false), REASON_SOURCE_CHANGED)
    else
      Complete(o.id, entry.path, entry.size, c.hash(bytes), None, "")
  }

  predicate Succeeded(reply: Reply) {
    match reply
    case FileResult(_, success) => success
    case BatchResult(success) => success
    case CanceledResult => false
  }

  function Next(c: Config, o: Offer, s: System, a: Action): System {
    if !Enabled(o, s, a) then s
    else
      match a
      case TakeJob(w) =>
        s.(workers := s.workers[w := Some(s.next)], progress := s.progress[s.next := Sending([], false)], next := s.next + 1)
      case SendChunk(w, payload) =>
        var j := s.workers[w].value;
        var bytes := s.progress[j].bytes;
        s.(progress := s.progress[j := Sending(bytes + payload, true)],
           wire := s.wire + [Chunk(o, FileOf(o, j), bytes, payload)])
      case SendComplete(w, changed) =>
        var j := s.workers[w].value;
        var bytes := s.progress[j].bytes;
        s.(workers := s.workers[w := None], progress := s.progress[j := Terminated(bytes)],
           wire := s.wire + [Completion(c, o, FileOf(o, j), bytes, changed)])
      case SendFailure(w, reason) =>
        var j := s.workers[w].value;
        s.(workers := s.workers[w := None], progress := s.progress[j := Terminated(s.progress[j].bytes)],
           wire := s.wire + [FileFailed(o.id, FileOf(o, j).path, reason)])
      case Deliver(e) =>
        var r := Step(c, o, s.receiver, s.wire[0], e);
        s.(wire := s.wire[1..], receiver := r.state, back := s.back + r.replies, refused := r.error)
      case TakeResult =>
        if s.batchSent then s.(back := s.back[1..], verdict := Some(Succeeded(s.back[0])))
        else if Succeeded(s.back[0]) then s.(back := s.back[1..], succeeded := s.succeeded + 1)
        else s.(back := s.back[1..], failed := s.failed + 1)
      case SendBatch =>
        s.(batchSent := true, wire := s.wire + [BatchComplete(o.id)])
  }

  function Start(o: Offer, workers: nat, receiver: State): System {
    System(seq(workers, _ => None), 0, seq(|Jobs(o)|, _ => Queued), [], receiver, [], 0, 0, false, None, false)
  }

  function After(c: Config, o: Offer, s: System, actions: seq<Action>): System
    decreases |actions|
  {
    if actions == [] then s else After(c, o, Next(c, o, s, actions[0]), actions[1..])
  }
}
