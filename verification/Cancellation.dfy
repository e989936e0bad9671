/** What a canceled offer's frames do to the session that receives them. */
module Cancellation {
  import opened Destinations
  import opened Receiver
  import F = Fence

  function KindOf(m: Message): F.Kind {
    match m
    case Content(_, _, _, _, _) => F.Content
    case Complete(_, _, _, _, _, _) => F.Complete
    case FileFailed(_, _, _) => F.FileFailed
    case BatchComplete(_) => F.BatchComplete
    case Cancel(_) => F.Cancel
    case Abort(_) => F.Unrelated
  }

  /** The offer's records on the wire, each once it is whole. */
  function SentRecords(log: seq<F.Piece>): seq<F.Kind> {
    if log == [] then []
    else
      var last := log[|log| - 1];
      SentRecords(log[..|log| - 1]) + (if last.index + 1 >= last.pieces && !last.kind.Unrelated? then [last.kind] else [])
  }

  /** The receiver is sent exactly these records of the offer, whatever they say. */
  predicate Speaks(o: Offer, frames: seq<(Message, Env)>, kinds: seq<F.Kind>) {
    |frames| == |kinds| && forall i | 0 <= i < |frames| :: KindOf(frames[i].0) == kinds[i] && frames[i].0.offer == o.id
  }

  lemma {:induction false} RecordIsOnWire(log: seq<F.Piece>, kind: F.Kind)
    requires kind in SentRecords(log)
    ensures exists i :: 0 <= i < |log| && log[i].kind == kind
  {
    var front := log[..|log| - 1];
    if kind in SentRecords(front) {
      RecordIsOnWire(front, kind);
      var i :| 0 <= i < |front| && front[i].kind == kind;
      assert log[i].kind == kind;
    } else {
      assert log[|log| - 1].kind == kind;
    }
  }

  lemma {:induction false} RecordsAreFenced(log: seq<F.Piece>)
    requires F.Fenced(log)
    ensures forall i, j | 0 <= i < j < |SentRecords(log)| && SentRecords(log)[i] == F.Cancel :: !F.Checked(SentRecords(log)[j])
  {
    if log != [] {
      var front, last := log[..|log| - 1], log[|log| - 1];
      RecordsAreFenced(front);
      if F.Checked(last.kind) && F.Cancel in SentRecords(front) {
        RecordIsOnWire(front, F.Cancel);
      }
    }
  }

  // ---- the receiver, frame by frame ----

  /** Where the frames lead, before the session's end cleans up. */
  function Reached(c: Config, o: Offer, s: State, frames: seq<(Message, Env)>): State
    decreases |frames|
  {
    if frames == [] then s else Reached(c, o, Step(c, o, s, frames[0].0, frames[0].1).state, frames[1..])
  }

  lemma StepKeepsAcceptance(c: Config, o: Offer, s: State, m: Message, e: Env)
    ensures Step(c, o, s, m, e).state.accepted == s.accepted
  {
    hide FindFile, NewTemp, NewTempDisk, RemoveStaging, Verified, MakeParents;
  }

  lemma {:induction false} RunContinues(c: Config, o: Offer, s: State, first: seq<(Message, Env)>, more: seq<(Message, Env)>)
    requires !Run(c, o, s, first).error
    ensures Run(c, o, s, first + more).error == Run(c, o, Reached(c, o, s, first), more).error
    ensures Reached(c, o, s, first).accepted == s.accepted
    decreases |first|
  {
    hide Step;
    if first == [] {
      assert first + more == more;
    } else {
      StepKeepsAcceptance(c, o, s, first[0].0, first[0].1);
      RunContinues(c, o, Step(c, o, s, first[0].0, first[0].1).state, first[1..], more);
      assert (first + more)[1..] == first[1..] + more;
    }
  }

  ghost predicate FailureOrBatchFrom(frames: seq<(Message, Env)>, from: nat) {
    exists j :: from <= j < |frames| && F.Unchecked(KindOf(frames[j].0))
  }

  /** An offer that is over answers cancel and abort frames with nothing, and every frame
      of a file or a batch with an error. */
  lemma {:induction false} OverOfferEndsIff(c: Config, o: Offer, s: State, frames: seq<(Message, Env)>)
    requires !s.live && forall i | 0 <= i < |frames| :: !F.Checked(KindOf(frames[i].0))
    ensures Run(c, o, s, frames).error <==> FailureOrBatchFrom(frames, 0)
    decreases |frames|
  {
    if frames != [] {
      var m := frames[0].0;
      if F.Unchecked(KindOf(m)) {
        assert Step(c, o, s, m, frames[0].1).error;
      } else {
        assert Step(c, o, s, m, frames[0].1) == Proceed(s);
        OverOfferEndsIff(c, o, s, frames[1..]);
        ShorterByOne(frames);
      }
    }
  }

  lemma ShorterByOne(frames: seq<(Message, Env)>)
    requires frames != [] && !F.Unchecked(KindOf(frames[0].0))
    ensures FailureOrBatchFrom(frames[1..], 0) <==> FailureOrBatchFrom(frames, 0)
  {
    if j :| 0 <= j < |frames| && F.Unchecked(KindOf(frames[j].0)) {
      assert frames[1..][j - 1] == frames[j];
    }
    if j :| 0 <= j < |frames[1..]| && F.Unchecked(KindOf(frames[1..][j].0)) {
      assert frames[1..][j] == frames[j + 1];
    }
  }

  lemma CancelEndsTheOffer(c: Config, o: Offer, s: State, e: Env)
    requires s.accepted && e.sendOk
    ensures var r := Step(c, o, s, Cancel(o.id), e); !r.error && !r.state.live
  {
    hide RemoveIncomingFiles;
  }

  /** For every run of the sender's threads, with whatever its frames say: a session that
      is alive when the first cancel frame arrives survives what follows exactly when no
      failure frame and no batch frame is sent behind it. */
  lemma SessionSurvivesCancelIff(
      c: Config, o: Offer, s: State, files: nat, workers: nat, others: nat, moves: seq<F.Move>,
      frames: seq<(Message, Env)>, k: nat)
    requires s.accepted
    requires Speaks(o, frames, SentRecords(F.After(F.Start(files, workers, others), moves).log))
    requires k < |frames| && frames[k].0.Cancel? && (forall i | 0 <= i < k :: !frames[i].0.Cancel?)
    requires !Run(c, o, s, frames[..k]).error && frames[k].1.sendOk
    ensures var records := SentRecords(F.After(F.Start(files, workers, others), moves).log);
            !Run(c, o, s, frames).error <==> forall j | k < j < |records| :: !F.Unchecked(records[j])
  {
    hide Step, Run, SentRecords;
    var log := F.After(F.Start(files, workers, others), moves).log;
    F.CancelFence(files, workers, others, moves);
    RecordsAreFenced(log);
    var before, rest := Reached(c, o, s, frames[..k]), frames[k + 1..];
    assert frames == frames[..k] + frames[k..];
    RunContinues(c, o, s, frames[..k], frames[k..]);
    CancelEndsTheOffer(c, o, before, frames[k].1);
    var over := Step(c, o, before, frames[k].0, frames[k].1).state;
    assert frames[k] == (Cancel(o.id), frames[k].1);
    FirstFrame(c, o, before, frames[k..]);
    assert frames[k..][1..] == rest;
    forall i | 0 <= i < |rest| ensures !F.Checked(KindOf(rest[i].0)) && rest[i] == frames[k + 1 + i] {
      assert SentRecords(log)[k] == F.Cancel;
    }
    OverOfferEndsIff(c, o, over, rest);
    if j :| k < j < |frames| && F.Unchecked(KindOf(frames[j].0)) {
      assert rest[j - k - 1] == frames[j];
    }
  }

  lemma FirstFrame(c: Config, o: Offer, s: State, frames: seq<(Message, Env)>)
    requires frames != [] && !Step(c, o, s, frames[0].0, frames[0].1).error
    ensures Run(c, o, s, frames).error == Run(c, o, Step(c, o, s, frames[0].0, frames[0].1).state, frames[1..]).error
  {
    hide Step;
  }
}
