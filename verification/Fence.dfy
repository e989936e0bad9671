/** The cancel fence of one outgoing offer: workers, the result loop and any number of
    other threads that share the wire lock and the state lock, for every interleaving of
    their steps. A thread that sends content or a completion reads the cancel flag while
    it already holds the wire; a thread that cancels raises the flag before it asks for
    the wire. */
module Fence {
  import opened Names

  datatype Kind = Content | Complete | FileFailed | BatchComplete | Cancel | Unrelated

  /** One record to send: a frame, and for a chunk its payload, in so many writes. */
  datatype Job = Job(kind: Kind, pieces: nat)

  /** Only these two are sent with a check of the flag. */
  predicate Checked(kind: Kind) { kind.Content? || kind.Complete? }

  predicate Unchecked(kind: Kind) { kind.FileFailed? || kind.BatchComplete? }

  /** What a thread wants the state lock for: a worker's checks, or raising the flag. */
  datatype Purpose = Check | Raise(own: bool)

  /** A worker is at the top of its loop, inside a file past a check that found the flag
      down, or has left. The result loop counts until every file has its result. */
  datatype Place =
    | Top
    | InFile
    | Counting
    | Idle
    | Left
    | WantsState(purpose: Purpose)
    | HasState(purpose: Purpose)
    | WantsWire(job: Job)
    | HasWire(job: Job)
    | AtFlag(job: Job)
    | Writing(job: Job, written: nat)

  datatype Piece = Piece(thread: nat, kind: Kind, index: nat, pieces: nat)

  /** `taken` jobs have left the channel; `ended` files have their terminal frame sent. */
  datatype State = State(
    files: nat,
    taken: nat,
    ended: nat,
    canceled: bool,
    stateLock: Option<nat>,
    wireLock: Option<nat>,
    places: seq<Place>,
    log: seq<Piece>)

  datatype Move =
    | TakeJob(t: nat)
    | Leave(t: nat)
    | Recheck(t: nat)
    | SendChunk(t: nat, pieces: nat)
    | SendCompletion(t: nat)
    | Fail(t: nat)
    | LoopEnds(t: nat)
    | RequestCancel(t: nat, own: bool)
    | Submit(t: nat, pieces: nat)
    | TakeState(t: nat)
    | UseState(t: nat)
    | TakeWire(t: nat)
    | ReadFlag(t: nat)
    | Begin(t: nat)
    | WritePiece(t: nat)
    | Finish(t: nat)

  predicate Enabled(s: State, m: Move) {
    && m.t < |s.places|
    && var at := s.places[m.t];
       match m
       case TakeJob(_) => at.Top? && s.taken < s.files
       case Leave(_) => at.Top? && s.taken >= s.files
       case Recheck(_) => at.InFile?
       case SendChunk(_, pieces) => at.InFile? && pieces > 0
       case SendCompletion(_) => at.InFile?
       case Fail(_) => at.InFile?
       // the loop then waits for the workers, none of which has a file left
       case LoopEnds(_) => at.Counting? && s.ended >= s.files
       case RequestCancel(_, _) => at.Idle?
       case Submit(_, pieces) => at.Idle? && pieces > 0
       case TakeState(_) => s.stateLock == None && (at.WantsState? || (at.HasWire? && Checked(at.job.kind)))
       case UseState(_) => at.HasState?
       case TakeWire(_) => at.WantsWire? && s.wireLock == None
       case ReadFlag(_) => at.AtFlag?
       case Begin(_) => at.HasWire? && !Checked(at.job.kind)
       case WritePiece(_) => at.Writing? && at.written < at.job.pieces
       case Finish(_) => at.Writing? && at.written >= at.job.pieces
  }

  /** Where a thread goes with the state lock in hand: a worker on into its file or out
      of its loop; a canceller to the wire. A second request of the local user sends
      nothing, and the peer's is echoed each time. */
  function PlaceAfterState(canceled: bool, purpose: Purpose): Place {
    match purpose
    case Check => if canceled then Left else InFile
    case Raise(own) => if canceled && own then Idle else WantsWire(Job(Cancel, 1))
  }

  function PlaceAfterRecord(kind: Kind): Place {
    match kind
    case Content => InFile
    case Complete => Top
    case FileFailed => Top
    case BatchComplete => Left
    case Cancel => Idle
    case Unrelated => Idle
  }

  predicate EndsFile(kind: Kind) { kind.Complete? || kind.FileFailed? }

  function At(s: State, t: nat, p: Place): State
    requires t < |s.places|
  {
    s.(places := s.places[t := p])
  }

  function Next(s: State, m: Move): State {
    if !Enabled(s, m) then s
    else
      var at := s.places[m.t];
      match m
      case TakeJob(t) => At(s, t, WantsState(Check)).(taken := s.taken + 1)
      case Leave(t) => At(s, t, Left)
      case Recheck(t) => At(s, t, WantsState(Check))
      case SendChunk(t, pieces) => At(s, t, WantsWire(Job(Content, pieces)))
      case SendCompletion(t) => At(s, t, WantsWire(Job(Complete, 1)))
      case Fail(t) => At(s, t, WantsWire(Job(FileFailed, 1)))
      case LoopEnds(t) => At(s, t, WantsWire(Job(BatchComplete, 1)))
      case RequestCancel(t, own) => At(s, t, WantsState(Raise(own)))
      case Submit(t, pieces) => At(s, t, WantsWire(Job(Unrelated, pieces)))
      case TakeState(t) =>
        At(s, t, if at.WantsState? then HasState(at.purpose) else AtFlag(at.job)).(stateLock := Some(t))
      case UseState(t) =>
        At(s, t, PlaceAfterState(s.canceled, at.purpose)).(stateLock := None, canceled := s.canceled || at.purpose.Raise?)
      case TakeWire(t) => At(s, t, HasWire(at.job)).(wireLock := Some(t))
      case ReadFlag(t) =>
        if s.canceled then At(s, t, Left).(stateLock := None, wireLock := None)
        else At(s, t, Writing(at.job, 0)).(stateLock := None)
      case Begin(t) => At(s, t, Writing(at.job, 0))
      case WritePiece(t) =>
        At(s, t, Writing(at.job, at.written + 1)).(
          log := s.log + [Piece(t, at.job.kind, at.written, at.job.pieces)],
          ended := if EndsFile(at.job.kind) && at.written + 1 == at.job.pieces then s.ended + 1 else s.ended)
      case Finish(t) => At(s, t, PlaceAfterRecord(at.job.kind)).(wireLock := None)
  }

  function Start(files: nat, workers: nat, others: nat): State {
    State(files, 0, 0, false, None, None, seq(workers, _ => Top) + [Counting] + seq(others, _ => Idle), [])
  }

  function After(s: State, moves: seq<Move>): State
    decreases |moves|
  {
    if moves == [] then s else After(Next(s, moves[0]), moves[1..])
  }

  // ---- what is claimed of the log ----

  /** No content and no completion after a cancel frame. */
  ghost predicate Fenced(log: seq<Piece>) {
    forall i, j | 0 <= i < j < |log| && log[i].kind.Cancel? :: !Checked(log[j].kind)
  }

  predicate Follows(a: Piece, b: Piece) { b == a.(index := a.index + 1) }

  /** Records lie on the wire whole and undivided; only the last may be unfinished. */
  ghost predicate Undivided(log: seq<Piece>) {
    && (forall i | 0 <= i < |log| :: log[i].index < log[i].pieces)
    && (forall i | 0 <= i < |log| :: log[i].index > 0 ==> i > 0 && Follows(log[i - 1], log[i]))
    && (forall i | 0 <= i < |log| - 1 :: log[i].index + 1 < log[i].pieces ==> Follows(log[i], log[i + 1]))
  }

  // ---- the invariant ----

  predicate HoldsWire(p: Place) { p.HasWire? || p.AtFlag? || p.Writing? }

  predicate HoldsState(p: Place) { p.AtFlag? || p.HasState? }

  predicate HasJob(p: Place) { p.WantsWire? || HoldsWire(p) }

  predicate Sends(p: Place, kind: Kind) { HasJob(p) && p.job.kind == kind }

  ghost predicate WireLocked(s: State) {
    && (forall t: nat | t < |s.places| :: s.wireLock == Some(t) <==> HoldsWire(s.places[t]))
    && (s.wireLock.Some? ==> s.wireLock.value < |s.places|)
  }

  ghost predicate StateLocked(s: State) {
    && (forall t: nat | t < |s.places| :: s.stateLock == Some(t) <==> HoldsState(s.places[t]))
    && (s.stateLock.Some? ==> s.stateLock.value < |s.places|)
  }

  predicate Shaped(p: Place) {
    HasJob(p) ==>
      && p.job.pieces > 0 && (Unchecked(p.job.kind) ==> p.job.pieces == 1)
      && (p.AtFlag? ==> Checked(p.job.kind))
  }

  ghost predicate Locks(s: State) {
    WireLocked(s) && StateLocked(s) && forall t: nat | t < |s.places| :: Shaped(s.places[t])
  }

  ghost predicate CancelsAreFlagged(s: State) {
    && (forall t: nat | t < |s.places| && Sends(s.places[t], Cancel) :: s.canceled)
    && (forall i | 0 <= i < |s.log| && s.log[i].kind.Cancel? :: s.canceled)
  }

  ghost predicate NoCancelYet(log: seq<Piece>) { forall i | 0 <= i < |log| :: !log[i].kind.Cancel? }

  /** Whoever is past the check still has the wire to itself. */
  ghost predicate ClearedBeforeCancel(s: State) {
    forall t: nat | t < |s.places| && s.places[t].Writing? && Checked(s.places[t].job.kind) :: NoCancelYet(s.log)
  }

  /** The last record on the wire is whole, or it is the one being written. */
  ghost predicate TailMatches(s: State) {
    && (forall t: nat | t < |s.places| && s.places[t].Writing? ::
          var p := s.places[t];
          && p.written <= p.job.pieces
          && (p.written > 0 ==> s.log != [] && s.log[|s.log| - 1] == Piece(t, p.job.kind, p.written - 1, p.job.pieces))
          && (p.written == 0 ==> Closed(s.log)))
    && ((forall t: nat | t < |s.places| :: !s.places[t].Writing?) ==> Closed(s.log))
  }

  predicate Closed(log: seq<Piece>) { log == [] || log[|log| - 1].index + 1 >= log[|log| - 1].pieces }

  ghost predicate Inv(s: State) {
    && Locks(s) && CancelsAreFlagged(s) && ClearedBeforeCancel(s) && TailMatches(s)
    && Fenced(s.log) && Undivided(s.log)
  }

  lemma WireLockStays(s: State, m: Move)
    requires WireLocked(s) && Enabled(s, m)
    ensures WireLocked(Next(s, m))
  {
    hide Checked, EndsFile;
  }

  lemma StateLockStays(s: State, m: Move)
    requires StateLocked(s) && Enabled(s, m)
    ensures StateLocked(Next(s, m))
  {
    hide Checked, EndsFile;
  }

  lemma LocksStay(s: State, m: Move)
    requires Locks(s) && Enabled(s, m)
    ensures Locks(Next(s, m))
  {
    hide WireLocked, StateLocked;
    WireLockStays(s, m);
    StateLockStays(s, m);
    assert Shaped(s.places[m.t]);
    var s' := Next(s, m);
    forall u: nat | u < |s'.places| ensures Shaped(s'.places[u]) {
      assert u != m.t ==> s'.places[u] == s.places[u];
    }
  }

  lemma FlagStays(s: State, m: Move)
    requires CancelsAreFlagged(s) && Enabled(s, m)
    ensures CancelsAreFlagged(Next(s, m))
  {
    assert m.WritePiece? ==> s.places[m.t].Writing?;
    assert HasJob(s.places[m.t]) ==> Sends(s.places[m.t], s.places[m.t].job.kind);
  }

  /** No two threads write at once. */
  lemma OneWriter(s: State, t: nat, u: nat)
    requires Locks(s) && t < |s.places| && u < |s.places| && HoldsWire(s.places[t]) && HoldsWire(s.places[u])
    ensures t == u
  {
    assert s.wireLock == Some(t);
  }

  lemma CheckStays(s: State, m: Move)
    requires Locks(s) && CancelsAreFlagged(s) && ClearedBeforeCancel(s) && Enabled(s, m)
    ensures ClearedBeforeCancel(Next(s, m))
  {
    hide CancelsAreFlagged, Locks;
    var s' := Next(s, m);
    forall t: nat | t < |s'.places| && s'.places[t].Writing? && Checked(s'.places[t].job.kind) ensures NoCancelYet(s'.log) {
      if m.WritePiece? {
        if t != m.t {
          OneWriter(s, t, m.t);
        }
        assert s.places[t].Writing? && NoCancelYet(s.log);
      } else if m.ReadFlag? && t == m.t {
        NoCancelBeforeFlag(s);
      } else {
        assert s.places[t] == s'.places[t];
      }
    }
  }

  lemma NoCancelBeforeFlag(s: State)
    requires CancelsAreFlagged(s) && !s.canceled
    ensures NoCancelYet(s.log)
  {
  }

  lemma TailStays(s: State, m: Move)
    requires Locks(s) && TailMatches(s) && Enabled(s, m) && !m.WritePiece?
    ensures TailMatches(Next(s, m))
  {
    hide Locks, Checked, PlaceAfterRecord, PlaceAfterState;
    var s' := Next(s, m);
    SameLog(s, m);
    if HoldsWire(s.places[m.t]) {
      forall u: nat | u < |s.places| && u != m.t ensures !s.places[u].Writing? {
        if s.places[u].Writing? {
          OneWriter(s, u, m.t);
        }
      }
      RestingAfterRecord();
    } else {
      RestingAfterRecord();
      forall u: nat | u < |s.places| ensures s'.places[u].Writing? <==> s.places[u].Writing? {
      }
      forall u: nat | u < |s.places| && s'.places[u].Writing? ensures s'.places[u] == s.places[u] {
      }
    }
  }

  lemma RestingAfterRecord()
    ensures forall kind :: !HasJob(PlaceAfterRecord(kind)) && !HoldsState(PlaceAfterRecord(kind))
    ensures forall canceled, purpose :: !HoldsWire(PlaceAfterState(canceled, purpose)) && !HoldsState(PlaceAfterState(canceled, purpose))
  {
  }

  lemma WriteKeepsLog(s: State, t: nat)
    requires Inv(s) && Enabled(s, WritePiece(t))
    ensures Fenced(Next(s, WritePiece(t)).log) && Undivided(Next(s, WritePiece(t)).log)
  {
    hide Locks, CancelsAreFlagged;
    var p, log := s.places[t], s.log;
    assert Checked(p.job.kind) ==> NoCancelYet(log);
    var piece := Piece(t, p.job.kind, p.written, p.job.pieces);
    var log' := Next(s, WritePiece(t)).log;
    assert log' == log + [piece];
    assert forall i | 0 <= i < |log| :: log'[i] == log[i];
    assert p.written > 0 ==> Follows(log[|log| - 1], piece);
  }

  lemma WriteKeepsTail(s: State, t: nat)
    requires Locks(s) && TailMatches(s) && Enabled(s, WritePiece(t))
    ensures TailMatches(Next(s, WritePiece(t)))
  {
    hide Locks;
    var s' := Next(s, WritePiece(t));
    forall u: nat | u < |s.places| && u != t ensures !s.places[u].Writing? {
      if s.places[u].Writing? {
        OneWriter(s, u, t);
      }
    }
    assert s'.places[t].Writing?;
  }

  lemma NextKeepsInv(s: State, m: Move)
    requires Inv(s)
    ensures Inv(Next(s, m)) && s.log <= Next(s, m).log && |Next(s, m).places| == |s.places|
  {
    hide Locks, CancelsAreFlagged, ClearedBeforeCancel, TailMatches, Fenced, Undivided;
    if Enabled(s, m) {
      LocksStay(s, m);
      FlagStays(s, m);
      CheckStays(s, m);
      if m.WritePiece? {
        WriteKeepsLog(s, m.t);
        WriteKeepsTail(s, m.t);
      } else {
        TailStays(s, m);
        SameLog(s, m);
      }
    }
  }

  lemma SameLog(s: State, m: Move)
    requires !m.WritePiece?
    ensures Next(s, m).log == s.log
  {
  }

  lemma {:induction false} RunKeepsInv(s: State, moves: seq<Move>)
    requires Inv(s)
    ensures Inv(After(s, moves)) && s.log <= After(s, moves).log && |After(s, moves).places| == |s.places|
    decreases |moves|
  {
    hide Inv, Next;
    if moves != [] {
      NextKeepsInv(s, moves[0]);
      RunKeepsInv(Next(s, moves[0]), moves[1..]);
    }
  }

  lemma StartHasInv(files: nat, workers: nat, others: nat)
    ensures Inv(Start(files, workers, others))
  {
  }

  /** For every number of files and threads and every interleaving: once a cancel frame
      is on the wire no content and no completion follows it, and no record is ever
      divided by another. */
  lemma CancelFence(files: nat, workers: nat, others: nat, moves: seq<Move>)
    ensures Fenced(After(Start(files, workers, others), moves).log)
    ensures Undivided(After(Start(files, workers, others), moves).log)
  {
    RunKeepsInv(Start(files, workers, others), moves);
  }

  /** A thread in the middle of something. */
  predicate UnderWay(p: Place) { !p.Idle? && !p.Left? && !p.Top? && !p.Counting? }

  /** The two locks never deadlock: while a thread is under way, some step of a thread
      that is under way is possible. */
  lemma LocksNeverDeadlock(files: nat, workers: nat, others: nat, moves: seq<Move>, t: nat)
    requires var s := After(Start(files, workers, others), moves); t < |s.places| && UnderWay(s.places[t])
    ensures var s := After(Start(files, workers, others), moves);
            exists m :: Enabled(s, m) && UnderWay(s.places[m.t])
  {
    hide After, Inv;
    StartHasInv(files, workers, others);
    RunKeepsInv(Start(files, workers, others), moves);
    SomeoneCanMove(After(Start(files, workers, others), moves), t);
  }

  lemma SomeoneCanMove(s: State, t: nat)
    requires Inv(s) && t < |s.places| && UnderWay(s.places[t])
    ensures exists m :: Enabled(s, m) && UnderWay(s.places[m.t])
  {
    hide TailMatches, Undivided, Fenced, CancelsAreFlagged, ClearedBeforeCancel;
    if s.stateLock.Some? {
      var u := s.stateLock.value;
      assert HoldsState(s.places[u]);
      assert Enabled(s, if s.places[u].AtFlag? then ReadFlag(u) else UseState(u));
    } else if s.wireLock.Some? {
      var u := s.wireLock.value;
      assert HoldsWire(s.places[u]);
      assert !s.places[u].AtFlag?;
      var job := s.places[u].job;
      if s.places[u].HasWire? {
        assert Enabled(s, if Checked(job.kind) then TakeState(u) else Begin(u));
      } else {
        assert Enabled(s, if s.places[u].written < job.pieces then WritePiece(u) else Finish(u));
      }
    } else {
      assert !HoldsWire(s.places[t]) && !HoldsState(s.places[t]);
      assert Enabled(s, if s.places[t].InFile? then Fail(t) else if s.places[t].WantsWire? then TakeWire(t) else TakeState(t));
    }
  }

  // ---- what may still follow a cancel frame ----

  ghost predicate CancelOnWire(log: seq<Piece>) { !NoCancelYet(log) }

  /** A worker past its last check, on its way out with a failure or still able to meet
      one; the result loop on its way with the batch, or with nothing left to count. */
  predicate BoundToSend(s: State, p: Place) {
    || p.InFile?
    || (p.Counting? && s.ended >= s.files)
    || (HasJob(p) && Unchecked(p.job.kind) && !(p.Writing? && p.written >= p.job.pieces))
  }

  ghost predicate SomeoneBound(s: State) { exists t: nat :: t < |s.places| && BoundToSend(s, s.places[t]) }

  ghost predicate UncheckedFrom(log: seq<Piece>, from: nat) { exists j :: from <= j < |log| && Unchecked(log[j].kind) }

  lemma NobodyBecomesBound(s: State, m: Move)
    requires Inv(s) && CancelOnWire(s.log) && !SomeoneBound(s)
    ensures !SomeoneBound(Next(s, m)) && !UncheckedFrom(Next(s, m).log, |s.log|)
  {
    hide TailMatches, Fenced, Undivided;
    var s' := Next(s, m);
    assert s.canceled;
    if Enabled(s, m) {
      assert !BoundToSend(s, s.places[m.t]);
      assert s.places[m.t].Writing? ==> !Checked(s.places[m.t].job.kind);
      forall u: nat | u < |s'.places| ensures !BoundToSend(s', s'.places[u]) {
        assert !BoundToSend(s, s.places[u]);
      }
    }
  }

  lemma {:induction false} NobodyBoundSendsNothing(s: State, moves: seq<Move>)
    requires Inv(s) && CancelOnWire(s.log) && !SomeoneBound(s)
    ensures !UncheckedFrom(After(s, moves).log, |s.log|)
    decreases |moves|
  {
    hide Inv, Next, SomeoneBound;
    if moves != [] {
      var s' := Next(s, moves[0]);
      NextKeepsInv(s, moves[0]);
      NobodyBecomesBound(s, moves[0]);
      assert CancelOnWire(s'.log) by {
        var i :| 0 <= i < |s.log| && s.log[i].kind.Cancel?;
        assert s'.log[i] == s.log[i];
      }
      NobodyBoundSendsNothing(s', moves[1..]);
      RunKeepsInv(s', moves[1..]);
      var log := After(s', moves[1..]).log;
      forall j | |s.log| <= j < |log| ensures !Unchecked(log[j].kind) {
        assert j < |s'.log| ==> log[j] == s'.log[j];
      }
    }
  }

  lemma FirstMove(s: State, m: Move, s': State, rest: seq<Move>)
    requires Next(s, m) == s'
    ensures After(s, [m] + rest) == After(s', rest)
  {
    assert ([m] + rest)[1..] == rest;
  }

  lemma {:induction false} AfterConcat(s: State, first: seq<Move>, second: seq<Move>)
    ensures After(s, first + second) == After(After(s, first), second)
    decreases |first|
  {
    if first == [] {
      assert first + second == second;
    } else {
      AfterConcat(Next(s, first[0]), first[1..], second);
      assert (first + second)[1..] == first[1..] + second;
    }
  }

  /** From `s` on, `s'` is reached without moving thread `t`. */
  ghost predicate Reaches(s: State, s': State, t: nat) {
    && (exists moves :: After(s, moves) == s')
    && Inv(s') && s'.canceled && |s'.places| == |s.places| && s.log <= s'.log
    && t < |s.places| && s'.places[t] == s.places[t]
  }

  lemma ReachesSelf(s: State, t: nat)
    requires Inv(s) && s.canceled && t < |s.places|
    ensures Reaches(s, s, t)
  {
    assert After(s, []) == s;
  }

  lemma ReachesFurther(s: State, s': State, t: nat, m: Move)
    requires Reaches(s, s', t) && m.t != t
    ensures Reaches(s, Next(s', m), t)
  {
    hide Inv;
    var moves :| After(s, moves) == s';
    NextKeepsInv(s', m);
    AfterConcat(s, moves, [m]);
    assert After(s', [m]) == After(Next(s', m), [m][1..]);
    assert After(s, moves + [m]) == Next(s', m);
    OnlyItsThreadMoves(s', m, t);
  }

  lemma OnlyItsThreadMoves(s: State, m: Move, t: nat)
    requires t < |s.places| && m.t != t
    ensures Next(s, m).places[t] == s.places[t] && (s.canceled ==> Next(s, m).canceled)
  {
  }

  /** The state lock can be had by a thread that waits for it. */
  lemma StateLockIsFreed(s: State, s': State, t: nat) returns (free: State)
    requires Reaches(s, s', t) && !HoldsState(s.places[t])
    ensures Reaches(s, free, t) && (free.stateLock == None || HoldsWire(free.places[free.stateLock.value]))
    ensures free.wireLock == s'.wireLock && (s'.wireLock.Some? ==> free.places[s'.wireLock.value] == s'.places[s'.wireLock.value])
  {
    if s'.stateLock == None || s'.places[s'.stateLock.value].AtFlag? {
      free := s';
    } else {
      var v := s'.stateLock.value;
      assert HoldsState(s'.places[v]);
      ReachesFurther(s, s', t, UseState(v));
      free := Next(s', UseState(v));
    }
  }

  /** A record under way is written to its end. */
  lemma {:induction false} RecordIsFinished(s: State, s': State, t: nat, u: nat) returns (free: State)
    requires Reaches(s, s', t) && u < |s.places| && u != t && s'.places[u].Writing?
    ensures Reaches(s, free, t) && free.wireLock == None
    decreases if s'.places[u].Writing? then s'.places[u].job.pieces - s'.places[u].written else 0
  {
    hide TailMatches, Undivided, Fenced;
    var p := s'.places[u];
    if p.written < p.job.pieces {
      ReachesFurther(s, s', t, WritePiece(u));
      free := RecordIsFinished(s, Next(s', WritePiece(u)), t, u);
    } else {
      ReachesFurther(s, s', t, Finish(u));
      free := Next(s', Finish(u));
    }
  }

  /** And so the wire comes free for a thread that waits for it. */
  lemma WireIsFreed(s: State, t: nat) returns (free: State)
    requires Inv(s) && s.canceled && t < |s.places| && s.places[t].WantsWire?
    ensures Reaches(s, free, t) && free.wireLock == None
  {
    hide TailMatches, Undivided, Fenced, CancelsAreFlagged, ClearedBeforeCancel;
    ReachesSelf(s, t);
    if s.wireLock == None {
      free := s;
    } else {
      var u := s.wireLock.value;
      assert HoldsWire(s.places[u]) && u != t;
      free := StateLockIsFreed(s, s, t);
      var p := free.places[u];
      if p.Writing? {
        free := RecordIsFinished(s, free, t, u);
      } else if p.HasWire? && !Checked(p.job.kind) {
        ReachesFurther(s, free, t, Begin(u));
        free := RecordIsFinished(s, Next(free, Begin(u)), t, u);
      } else {
        free := CheckedIsTurnedAway(s, free, t, u);
      }
    }
  }

  /** A checked record that has not begun is given up, since the flag is up. */
  lemma CheckedIsTurnedAway(s: State, s': State, t: nat, u: nat) returns (free: State)
    requires Reaches(s, s', t) && u < |s.places| && u != t && s'.wireLock == Some(u)
    requires s'.stateLock == None || HoldsWire(s'.places[s'.stateLock.value])
    requires s'.places[u].AtFlag? || (s'.places[u].HasWire? && Checked(s'.places[u].job.kind))
    ensures Reaches(s, free, t) && free.wireLock == None
  {
    hide TailMatches, Undivided, Fenced, CancelsAreFlagged, ClearedBeforeCancel;
    free := s';
    if s'.stateLock.Some? {
      OneWriter(s', s'.stateLock.value, u);
    }
    if free.places[u].HasWire? {
      assert !HoldsState(s'.places[u]) && s'.stateLock == None;
      ReachesFurther(s, free, t, TakeState(u));
      free := Next(free, TakeState(u));
    }
    ReachesFurther(s, free, t, ReadFlag(u));
    free := Next(free, ReadFlag(u));
  }

  predicate CanGoOut(s: State, t: nat) {
    && t < |s.places| && HasJob(s.places[t]) && Unchecked(s.places[t].job.kind)
    && !(s.places[t].Writing? && s.places[t].written >= s.places[t].job.pieces)
  }

  /** A thread that has the wire for an unchecked record sends it. */
  lemma UncheckedIsWritten(s: State, moves: seq<Move>, s': State, t: nat)
    requires Inv(s') && After(s, moves) == s' && s.log <= s'.log && CanGoOut(s', t) && !s'.places[t].WantsWire?
    ensures exists moves :: UncheckedFrom(After(s, moves).log, |s.log|)
  {
    hide TailMatches, Undivided, Fenced, CancelsAreFlagged, ClearedBeforeCancel, After, UncheckedFrom;
    var moves, s' := moves, s';
    assert !s'.places[t].AtFlag?;
    if s'.places[t].HasWire? {
      moves, s' := OneMore(s, moves, s', Begin(t));
    }
    LastPiece(s, s', t);
    moves, s' := OneMore(s, moves, s', WritePiece(t));
  }

  /** And one that wants the wire gets it. */
  lemma UncheckedGoesOut(s: State, t: nat)
    requires Inv(s) && s.canceled && CanGoOut(s, t)
    ensures exists moves :: UncheckedFrom(After(s, moves).log, |s.log|)
  {
    hide TailMatches, Undivided, Fenced, CancelsAreFlagged, ClearedBeforeCancel, After, UncheckedFrom;
    var moves, s' := [], s;
    NoMoves(s);
    if s.places[t].WantsWire? {
      s' := WireIsFreed(s, t);
      moves :| After(s, moves) == s';
      moves, s' := OneMore(s, moves, s', TakeWire(t));
    }
    UncheckedIsWritten(s, moves, s', t);
  }

  lemma LastPiece(s: State, s': State, t: nat)
    requires s.log <= s'.log && Enabled(s', WritePiece(t)) && Unchecked(s'.places[t].job.kind)
    ensures UncheckedFrom(Next(s', WritePiece(t)).log, |s.log|)
  {
    assert Unchecked(Next(s', WritePiece(t)).log[|s'.log|].kind);
  }

  lemma NoMoves(s: State)
    ensures After(s, []) == s
  {
  }

  lemma OneMore(s: State, moves: seq<Move>, s': State, m: Move) returns (moves': seq<Move>, s'': State)
    requires After(s, moves) == s' && Inv(s')
    ensures moves' == moves + [m] && s'' == Next(s', m) && After(s, moves') == s'' && Inv(s'')
  {
    hide Inv;
    moves', s'' := moves + [m], Next(s', m);
    AfterConcat(s, moves, [m]);
    NextKeepsInv(s', m);
    assert After(s', [m]) == After(Next(s', m), [m][1..]);
  }

  lemma BoundCanSend(s: State, t: nat)
    requires Inv(s) && s.canceled && t < |s.places| && BoundToSend(s, s.places[t])
    ensures exists moves :: UncheckedFrom(After(s, moves).log, |s.log|)
  {
    hide Inv, After;
    if HasJob(s.places[t]) {
      UncheckedGoesOut(s, t);
    } else {
      var m := if s.places[t].InFile? then Fail(t) else LoopEnds(t);
      var s' := Next(s, m);
      NextKeepsInv(s, m);
      UncheckedGoesOut(s', t);
      var moves :| UncheckedFrom(After(s', moves).log, |s'.log|);
      FirstMove(s, m, s', moves);
      assert UncheckedFrom(After(s, [m] + moves).log, |s.log|);
    }
  }

  /** In every run, from the cancel frame on: a failure frame or the batch can still
      follow exactly when a worker is already past its last check, or the result loop is
      already past its count. Everyone else turns away at the flag. */
  lemma UncheckedCanFollowIff(files: nat, workers: nat, others: nat, moves: seq<Move>)
    requires CancelOnWire(After(Start(files, workers, others), moves).log)
    ensures var s := After(Start(files, workers, others), moves);
            (exists more :: UncheckedFrom(After(s, more).log, |s.log|)) <==> SomeoneBound(s)
  {
    hide After, BoundToSend;
    RunKeepsInv(Start(files, workers, others), moves);
    var s := After(Start(files, workers, others), moves);
    FlaggedByCancel(s);
    if t: nat :| t < |s.places| && BoundToSend(s, s.places[t]) {
      BoundCanSend(s, t);
    } else {
      forall more ensures !UncheckedFrom(After(s, more).log, |s.log|) {
        NobodyBoundSendsNothing(s, more);
      }
    }
  }

  lemma FlaggedByCancel(s: State)
    requires CancelsAreFlagged(s) && CancelOnWire(s.log)
    ensures s.canceled
  {
  }

  // ---- it does happen ----

  /** A worker is past its last check when the flag goes up and the cancel frame out. */
  function StoryMove(step: nat): Move
    requires step < 9
  {
    match step
    case 0 => TakeJob(0)
    case 1 => TakeState(0)
    case 2 => UseState(0)
    case 3 => RequestCancel(2, true)
    case 4 => TakeState(2)
    case 5 => UseState(2)
    case 6 => TakeWire(2)
    case 7 => Begin(2)
    case _ => WritePiece(2)
  }

  function StoryState(step: nat): State {
    var worker := if step == 0 then Top else if step == 1 then WantsState(Check) else if step == 2 then HasState(Check) else InFile;
    var canceller := if step <= 3 then Idle
                     else if step == 4 then WantsState(Raise(true))
                     else if step == 5 then HasState(Raise(true))
                     else if step == 6 then WantsWire(Job(Cancel, 1))
                     else if step == 7 then HasWire(Job(Cancel, 1))
                     else Writing(Job(Cancel, 1), if step == 8 then 0 else 1);
    State(1, if step == 0 then 0 else 1, 0, step >= 6,
          if step == 2 then Some(0) else if step == 5 then Some(2) else None,
          if step >= 7 then Some(2) else None,
          [worker, Counting, canceller],
          if step >= 9 then [Piece(2, Cancel, 0, 1)] else [])
  }

  lemma StoryGoesOn(step: nat)
    requires step < 9
    ensures Next(StoryState(step), StoryMove(step)) == StoryState(step + 1)
  {
  }

  lemma {:induction false} StoryFrom(step: nat) returns (moves: seq<Move>)
    requires step <= 9
    ensures After(StoryState(step), moves) == StoryState(9)
    decreases 9 - step
  {
    hide StoryState, Next, StoryMove;
    if step == 9 {
      moves := [];
    } else {
      var rest := StoryFrom(step + 1);
      StoryGoesOn(step);
      moves := [StoryMove(step)] + rest;
      assert moves[1..] == rest;
    }
  }

  /** A run that puts a failure frame behind the cancel frame. */
  lemma FailureCanFollowCancel()
    ensures exists moves :: var log := After(Start(1, 1, 1), moves).log; |log| > 1 && log[0].kind == Cancel && UncheckedFrom(log, 1)
  {
    hide After;
    assert Start(1, 1, 1) == StoryState(0);
    var moves := StoryFrom(0);
    var s := StoryState(9);
    StartHasInv(1, 1, 1);
    RunKeepsInv(Start(1, 1, 1), moves);
    assert BoundToSend(s, s.places[0]);
    BoundCanSend(s, 0);
    var more :| UncheckedFrom(After(s, more).log, 1);
    AfterConcat(Start(1, 1, 1), moves, more);
    RunKeepsInv(s, more);
    assert s.log[0] == After(s, more).log[0];
    assert UncheckedFrom(After(Start(1, 1, 1), moves + more).log, 1);
  }
}
