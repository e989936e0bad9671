/** Which cancel frames reach an offer in time: how an offer ended, what its cancel frames
    and its cancel requests found, and that this is told to its owner. */
module Stopping {
  import opened Names
  import opened Coordinator
  import opened OneOffer
  import opened Steps
  import opened Standstill

  function Cancels(frames: seq<Frame>): nat {
    if frames == [] then 0 else (if frames[0].CancelFrame? then 1 else 0) + Cancels(frames[1..])
  }

  lemma {:induction false} CancelsAppend(frames: seq<Frame>, frame: Frame)
    ensures Cancels(frames + [frame]) == Cancels(frames) + (if frame.CancelFrame? then 1 else 0)
  {
    if frames == [] {
      assert frames + [frame] == [frame];
    } else {
      CancelsAppend(frames[1..], frame);
      assert (frames + [frame])[1..] == frames[1..] + [frame];
    }
  }

  lemma {:induction false} CancelsAreFrames(frames: seq<Frame>)
    ensures Cancels(frames) > 0 <==> CancelFrame in frames
  {
    if frames != [] {
      CancelsAreFrames(frames[1..]);
    }
  }

  /** The receiver has closed the offer upon a cancel frame. */
  predicate Stopped(t: Held) { Over(t.status) && t.status.stopped }

  // ---- what holds of one offer ----

  /** The last answer says how the offer ended, and its owner believes it. */
  ghost predicate EndingIsTold(o: Owned, t: Held, back: seq<Frame>) {
    && (forall i | 0 <= i < |back| :: TellsEnding(t, back[i]))
    && (forall i | 0 <= i < |o.inbox| :: TellsEnding(t, o.inbox[i]))
    && (o.phase.Gone? ==> o.phase.stopped == Stopped(t))
    && (Stopped(t) ==> t.accepted)
  }

  predicate TellsEnding(t: Held, frame: Frame) {
    && (frame.CancelResult? ==> Stopped(t))
    && (frame.FinalResult? ==> Over(t.status) && !Stopped(t))
  }

  /** Cancel frames behind the batch are late; an offer completed leaves only such ones. */
  ghost predicate LateIsBehind(o: Owned, t: Held, forth: seq<Frame>) {
    && (forall i, j | 0 <= i < j < |forth| && forth[i].Batch? && forth[j].CancelFrame? :: o.late)
    && (t.accepted && Over(t.status) && !Stopped(t) ==>
          (o.phase.Finishing? || o.phase.Gone?) && (CancelFrame in forth ==> o.late))
  }

  /** A flag raised after acceptance stops the offer or comes late. */
  ghost predicate FlagHits(o: Owned, t: Held, forth: seq<Frame>) {
    && (o.armed ==> o.late || Stopped(t) || o.cancelsOwed > 0 || CancelFrame in forth)
    && (o.late || Stopped(t) ==> o.canceled)
  }

  /** A request is made once, and without one there is one cancel frame at most. */
  ghost predicate OneOfEach(o: Owned, t: Held, forth: seq<Frame>, back: seq<Frame>) {
    && t.requestsOwed + Cancels(back) + (if o.heard.Some? then 1 else 0) == (if t.requested then 1 else 0)
    && (o.heard != Some(true) ==> o.cancelsOwed + Cancels(forth) + (if Stopped(t) then 1 else 0) <= 1)
  }

  ghost predicate StopInv(r: Record, forth: seq<Frame>, back: seq<Frame>) {
    && EndingIsTold(r.owner, r.taker, back) && LateIsBehind(r.owner, r.taker, forth)
    && FlagHits(r.owner, r.taker, forth) && OneOfEach(r.owner, r.taker, forth, back)
  }

  // ---- moves ----

  lemma MoveKeepsTold(z: Offered, n: nat, r: Record, p: Places, m: Move, forth: seq<Frame>, back: seq<Frame>)
    requires OfferInv(n, r, forth, back) && OfferMore(r, forth, back) && EndingIsTold(r.owner, r.taker, back) && CanMove(n, r, p, m)
    ensures var e := Moved(z, r, m); EndingIsTold(e.record.owner, e.record.taker, Plus(back, e.back))
  {
    hide Edges, Introduced, InOrder, Accounted, Followed, NoneFenced, ClosedWell, Answered, Endings, Decisions, NoneAfterEnding,
         RequestsAreTraced, CancelIsTraced, FramesAreTraced, OneEnding, EndingIsLast;
    if m.TakeResult? {
      HeadEnds(n, r, forth, back);
    }
    if m.TakeDecision? && r.owner.decision != Some(true) {
      RefusedOfferIsOver(r, forth, back);
    }
  }

  lemma MoveKeepsLate(z: Offered, n: nat, r: Record, p: Places, m: Move, forth: seq<Frame>)
    requires InOrder(r, forth) && LateIsBehind(r.owner, r.taker, forth) && FlagHits(r.owner, r.taker, forth) && CanMove(n, r, p, m)
    requires r.taker.accepted ==> !Undecided(r.taker.status)
    ensures var e := Moved(z, r, m);
            LateIsBehind(e.record.owner, e.record.taker, Plus(forth, e.forth)) && FlagHits(e.record.owner, e.record.taker, Plus(forth, e.forth))
  {
    hide Fenced;
  }

  lemma MoveKeepsCounts(z: Offered, n: nat, r: Record, p: Places, m: Move, forth: seq<Frame>, back: seq<Frame>)
    requires OneOfEach(r.owner, r.taker, forth, back) && CanMove(n, r, p, m)
    ensures var e := Moved(z, r, m); OneOfEach(e.record.owner, e.record.taker, Plus(forth, e.forth), Plus(back, e.back))
  {
    hide Cancels;
    var e := Moved(z, r, m);
    if e.forth.Some? {
      CancelsAppend(forth, e.forth.value);
    }
    if e.back.Some? {
      CancelsAppend(back, e.back.value);
    }
  }

  lemma MoveKeepsStops(z: Offered, n: nat, r: Record, p: Places, m: Move, forth: seq<Frame>, back: seq<Frame>)
    requires OfferInv(n, r, forth, back) && OfferMore(r, forth, back) && StopInv(r, forth, back) && CanMove(n, r, p, m)
    ensures var e := Moved(z, r, m); StopInv(e.record, Plus(forth, e.forth), Plus(back, e.back))
  {
    hide Plus, CanMove, EndingIsTold, LateIsBehind, FlagHits, OneOfEach, InOrder, OfferMore, Edges, Introduced, Accounted, Followed, ClosedWell, Answered;
    MoveKeepsTold(z, n, r, p, m, forth, back);
    MoveKeepsLate(z, n, r, p, m, forth);
    MoveKeepsCounts(z, n, r, p, m, forth, back);
  }

  // ---- a frame reaches the receiver ----

  lemma NoEndingAnywhere(r: Record, forth: seq<Frame>, back: seq<Frame>)
    requires OfferMore(r, forth, back) && r.taker.status.Accepted?
    ensures forall i | 0 <= i < |back| :: !IsEnding(back[i])
    ensures forall i | 0 <= i < |r.owner.inbox| :: !IsEnding(r.owner.inbox[i])
  {
    hide OfferMore;
    NoEndingYet(r, forth, back);
    var inbox := r.owner.inbox;
    assert forall i | 0 <= i < |inbox| :: inbox[i] == (inbox + back)[i];
    assert forall i | 0 <= i < |back| :: back[i] == (inbox + back)[|inbox| + i];
  }

  lemma HeardKeepsTold(z: Offered, r: Record, p: Places, room: bool, overlap: bool, forth: seq<Frame>, back: seq<Frame>)
    requires OfferMore(r, forth, back) && Introduced(r, forth) && Consented(r, back) && EndingIsTold(r.owner, r.taker, back) && forth != []
    ensures var e := Heard(z, r, p, forth[0], room, overlap);
            !e.broken ==> EndingIsTold(e.record.owner, e.record.taker, Plus(back, e.back))
  {
    hide OneDecision, OneEnding, EndingIsLast, RequestsAreTraced, CancelIsTraced, FramesAreTraced;
    if r.taker.status.Accepted? {
      NoEndingAnywhere(r, forth, back);
    }
  }

  lemma HeardKeepsLate(z: Offered, r: Record, p: Places, room: bool, overlap: bool, forth: seq<Frame>, back: seq<Frame>)
    requires InOrder(r, forth) && Introduced(r, forth) && Consented(r, back) && forth != []
    requires LateIsBehind(r.owner, r.taker, forth) && FlagHits(r.owner, r.taker, forth) && (r.owner.armed ==> r.taker.accepted)
    requires r.taker.status.Accepted? ==> p.incoming
    ensures var e := Heard(z, r, p, forth[0], room, overlap);
            !e.broken ==> LateIsBehind(e.record.owner, e.record.taker, forth[1..]) && FlagHits(e.record.owner, e.record.taker, forth[1..])
  {
    assert forall i | 0 <= i < |forth| - 1 :: forth[1..][i] == forth[i + 1];
    if CancelFrame in forth && forth[0] != CancelFrame {
      InTail(forth, CancelFrame);
    }
  }

  lemma HeardKeepsCounts(z: Offered, r: Record, p: Places, room: bool, overlap: bool, forth: seq<Frame>, back: seq<Frame>)
    requires OneOfEach(r.owner, r.taker, forth, back) && forth != []
    requires Introduced(r, forth)
    ensures var e := Heard(z, r, p, forth[0], room, overlap);
            !e.broken ==> OneOfEach(e.record.owner, e.record.taker, forth[1..], Plus(back, e.back))
  {
    var e := Heard(z, r, p, forth[0], room, overlap);
    if e.back.Some? {
      CancelsAppend(back, e.back.value);
    }
  }

  lemma HeardKeepsStops(z: Offered, n: nat, r: Record, p: Places, room: bool, overlap: bool, forth: seq<Frame>, back: seq<Frame>)
    requires OfferInv(n, r, forth, back) && OfferMore(r, forth, back) && StopInv(r, forth, back) && forth != []
    requires r.taker.status.Accepted? ==> p.incoming
    ensures var e := Heard(z, r, p, forth[0], room, overlap);
            !e.broken ==> StopInv(e.record, Plus(forth[1..], e.forth), Plus(back, e.back))
  {
    hide EndingIsTold, LateIsBehind, FlagHits, OneOfEach, InOrder, Edges, Introduced, Accounted, Followed, ClosedWell, Answered,
         OneDecision, RefusalsStand, OneEnding, EndingIsLast, RequestsAreTraced, FramesAreTraced, Consented;
    HeardKeepsTold(z, r, p, room, overlap, forth, back);
    HeardKeepsLate(z, r, p, room, overlap, forth, back);
    HeardKeepsCounts(z, r, p, room, overlap, forth, back);
  }

  // ---- a frame reaches the owner ----

  lemma HeededKeepsTold(r: Record, p: Places, back: seq<Frame>)
    requires EndingIsTold(r.owner, r.taker, back) && back != []
    ensures var e := Heeded(r, p, back[0]); !e.broken ==> EndingIsTold(e.record.owner, e.record.taker, back[1..])
  {
    assert forall i | 0 <= i < |back| - 1 :: back[1..][i] == back[i + 1];
  }

  lemma HeededKeepsLate(r: Record, p: Places, forth: seq<Frame>, frame: Frame)
    requires LateIsBehind(r.owner, r.taker, forth) && FlagHits(r.owner, r.taker, forth)
    ensures var e := Heeded(r, p, frame);
            !e.broken ==> LateIsBehind(e.record.owner, e.record.taker, forth) && FlagHits(e.record.owner, e.record.taker, forth)
  {
  }

  lemma HeededKeepsCounts(r: Record, p: Places, forth: seq<Frame>, back: seq<Frame>)
    requires OneOfEach(r.owner, r.taker, forth, back) && back != []
    ensures var e := Heeded(r, p, back[0]); !e.broken ==> OneOfEach(e.record.owner, e.record.taker, forth, back[1..])
  {
  }

  lemma HeededKeepsStops(r: Record, p: Places, forth: seq<Frame>, back: seq<Frame>)
    requires StopInv(r, forth, back) && back != []
    ensures var e := Heeded(r, p, back[0]);
            !e.broken ==> StopInv(e.record, Plus(forth, e.forth), Plus(back[1..], e.back))
  {
    hide EndingIsTold, LateIsBehind, FlagHits, OneOfEach;
    HeededKeepsTold(r, p, back);
    HeededKeepsLate(r, p, forth, back[0]);
    HeededKeepsCounts(r, p, forth, back);
  }

  // ---- offers made and offers canceled ----

  lemma SubmittedStops(r: Record, n: nat, forth: seq<Frame>, back: seq<Frame>)
    requires StopInv(r, forth, back) && r.owner.phase.Absent?
    ensures StopInv(Submitted(r, n), forth, back)
  {
    hide FilesBelow, Cancels;
  }

  lemma CanceledStops(r: Record, owner: bool, forth: seq<Frame>, back: seq<Frame>)
    requires InOrder(r, forth) && StopInv(r, forth, back)
    ensures StopInv(CancelPicked(r, owner), forth, back)
  {
    hide Cancels;
    CancelsAreFrames(forth);
  }

  // ---- the whole system ----

  ghost predicate StopHolds(s: System, z: Offered) { StopInv(RecordOf(s, z), Forth(s, z), Back(s, z)) }

  ghost predicate Stops(s: System) { !s.broken ==> forall z :: StopHolds(s, z) }

  lemma EffectsKeepStops(s: System, t: System, z: Offered, e: Effects)
    requires Stops(s) && !s.broken && !e.broken && t.offers == s.offers
    requires forall w | w != z :: Of(t.toPeer, w) == Of(s.toPeer, w) && Of(t.toCoordinator, w) == Of(s.toCoordinator, w)
    requires StopInv(e.record, Plus(Forth(t, z), e.forth), Plus(Back(t, z), e.back))
    ensures Stops(OneOffer.Apply(t, z, e))
  {
    hide StopInv, Of, Plus, RunAfter;
    var s' := OneOffer.Apply(t, z, e);
    forall w ensures StopHolds(s', w) {
      OfAppend(t.toPeer, z, if z.Own? then e.forth else e.back, w);
      OfAppend(t.toCoordinator, z, if z.Own? then e.back else e.forth, w);
      assert StopHolds(s, w);
      if w != z {
        assert RecordOf(s', w) == RecordOf(s, w);
      } else {
        assert RecordOf(s', z) == e.record;
      }
    }
  }

  lemma StopsOf(s: System, z: Offered)
    requires Stops(s) && !s.broken
    ensures StopHolds(s, z)
  {
  }

  lemma MoveKeepsAllStops(files: Offered -> nat, s: System, z: Offered, m: Move)
    requires More(files, s) && Stops(s) && !s.broken && CanMove(files(z), RecordOf(s, z), PlacesOf(s, z), m)
    ensures Stops(OneOffer.Apply(s, z, Moved(z, RecordOf(s, z), m)))
  {
    hide More, Stops, OfferInv, OfferMore, StopInv, Of, Plus, CanMove;
    MoreOf(files, s, z);
    StopsOf(s, z);
    MoveKeepsStops(z, files(z), RecordOf(s, z), PlacesOf(s, z), m, Forth(s, z), Back(s, z));
    MoveNeverBreaks(z, RecordOf(s, z), m);
    EffectsKeepStops(s, s, z, Moved(z, RecordOf(s, z), m));
  }

  lemma NewOfferKeepsAllStops(files: Offered -> nat, s: System, z: Offered)
    requires Stops(s) && !s.broken && RecordOf(s, z).owner.phase.Absent?
    ensures Stops(OneOffer.Apply(s, z, AtOwner(Submitted(RecordOf(s, z), files(z)), SubmitOp(z.handle))))
  {
    hide Stops, StopInv, Of, FilesBelow;
    StopsOf(s, z);
    SubmittedStops(RecordOf(s, z), files(z), Forth(s, z), Back(s, z));
    EffectsKeepStops(s, s, z, AtOwner(Submitted(RecordOf(s, z), files(z)), SubmitOp(z.handle)));
  }

  lemma CancelKeepsAllStops(files: Offered -> nat, s: System, z: Offered, owner: bool)
    requires More(files, s) && Stops(s) && !s.broken
    ensures Stops(OneOffer.Apply(s, z, Just(CancelPicked(RecordOf(s, z), owner))))
  {
    hide More, Stops, OfferMore, StopInv, Of, InOrder;
    MoreOf(files, s, z);
    StopsOf(s, z);
    CanceledStops(RecordOf(s, z), owner, Forth(s, z), Back(s, z));
    EffectsKeepStops(s, s, z, Just(CancelPicked(RecordOf(s, z), owner)));
  }

  lemma DeliverKeepsAllStops(files: Offered -> nat, s: System, t: System, toCoordinator: bool)
    requires More(files, s) && Stops(s) && !s.broken && Taken(s, t, toCoordinator)
    ensures var sent := Head(s, toCoordinator); Stops(OneOffer.Apply(t, sent.offer, Arrived(s, sent, toCoordinator)))
  {
    hide More, Stops, OfferInv, OfferMore, StopInv, Of, Heard, Heeded, Plus, HasTurn, PlacedMore, FlaggedInTime;
    var sent := Head(s, toCoordinator);
    var z, e := sent.offer, Arrived(s, sent, toCoordinator);
    MoreOf(files, s, z);
    StopsOf(s, z);
    TakenFrames(s, t, toCoordinator);
    if e.broken {
      BrokenStops(OneOffer.Apply(t, z, e));
    } else {
      var r, p := RecordOf(s, z), PlacesOf(s, z);
      if GoesToOwner(toCoordinator, z) {
        assert Back(s, z)[1..] == Back(t, z) && Back(s, z)[0] == sent.frame;
        HeededKeepsStops(r, p, Forth(s, z), Back(s, z));
      } else {
        var slots := ReceiverSlots(s, z);
        var room, overlap := slots.role == Outbound || |slots.coordinatorQueue| < MAX_QUEUED_OFFERS,
                             slots.role == Outbound && slots.incoming != None;
        assert Forth(s, z)[1..] == Forth(t, z) && Forth(s, z)[0] == sent.frame;
        HeardKeepsStops(z, files(z), r, p, room, overlap, Forth(s, z), Back(s, z));
      }
      EffectsKeepStops(s, t, z, e);
    }
  }

  lemma BrokenStops(s: System)
    requires s.broken
    ensures Stops(s)
  {
  }

  lemma NextKeepsStops(files: Offered -> nat, s: System, a: Action)
    requires More(files, s) && Stops(s)
    ensures Stops(Next(files, s, a))
  {
    hide More, Stops, OneOffer.Apply, Moved, Arrived, CanMove, Picked, RecordOf, CanDeliver;
    NextTakes(files, s, a);
    NoStepIsTaken(s);
    if !s.broken && StepOf(files, s, a).Some? {
      match a
      case NewOffer(z) => NewOfferKeepsAllStops(files, s, z);
      case OfferMove(z, m) => MoveKeepsAllStops(files, s, z, m);
      case CancelCommand(atCoordinator) =>
        CancelKeepsAllStops(files, s, Picked(s, atCoordinator).value, atCoordinator == Picked(s, atCoordinator).value.Own?);
      case DeliverToPeer => DeliverKeepsAllStops(files, s, s.(toPeer := s.toPeer[1..]), false);
      case DeliverToCoordinator => DeliverKeepsAllStops(files, s, s.(toCoordinator := s.toCoordinator[1..]), true);
    }
  }

  lemma FreshStops()
    ensures StopInv(FRESH, [], [])
  {
  }

  lemma StartStops()
    ensures Stops(Start())
  {
    hide StopInv;
    FreshStops();
    forall z ensures StopHolds(Start(), z) {
      assert RecordOf(Start(), z) == FRESH && Forth(Start(), z) == [] && Back(Start(), z) == [];
    }
  }

  /** Both invariants. */
  ghost predicate Traced(files: Offered -> nat, s: System) { More(files, s) && Stops(s) }

  lemma {:induction false} RunIsTraced(files: Offered -> nat, s: System, actions: seq<Action>)
    requires Traced(files, s)
    ensures Traced(files, After(files, s, actions))
    decreases |actions|
  {
    hide More, Stops, Next;
    if actions != [] {
      NextKeepsMore(files, s, actions[0]);
      NextKeepsStops(files, s, actions[0]);
      RunIsTraced(files, Next(files, s, actions[0]), actions[1..]);
    }
  }

  lemma StartIsTraced(files: Offered -> nat)
    ensures Traced(files, Start())
  {
    hide More, Stops;
    StartHasMore(files);
    StartStops();
  }
}
