/** Where runs of both peers can come to rest: what is left of every offer when nothing
    more has to happen, and which offers a cancel command has ended by then. */
module Standstill {
  import opened Names
  import opened Coordinator
  import opened OneOffer
  import opened Steps

  predicate IsEnding(frame: Frame) { frame.FinalResult? || frame.CancelResult? }

  function Decisions(frames: seq<Frame>): nat {
    if frames == [] then 0 else (if frames[0].Decision? then 1 else 0) + Decisions(frames[1..])
  }

  function Endings(frames: seq<Frame>): nat {
    if frames == [] then 0 else (if IsEnding(frames[0]) then 1 else 0) + Endings(frames[1..])
  }

  lemma {:induction false} CountsAppend(frames: seq<Frame>, frame: Frame)
    ensures Decisions(frames + [frame]) == Decisions(frames) + (if frame.Decision? then 1 else 0)
    ensures Endings(frames + [frame]) == Endings(frames) + (if IsEnding(frame) then 1 else 0)
  {
    if frames == [] {
      assert frames + [frame] == [frame];
    } else {
      CountsAppend(frames[1..], frame);
      assert (frames + [frame])[1..] == frames[1..] + [frame];
    }
  }

  lemma HeadsCount(frames: seq<Frame>)
    requires frames != []
    ensures Decisions(frames) == Decisions(frames[1..]) + (if frames[0].Decision? then 1 else 0)
    ensures Endings(frames) == Endings(frames[1..]) + (if IsEnding(frames[0]) then 1 else 0)
  {
  }

  lemma {:induction false} EndingIsCounted(frames: seq<Frame>, i: nat)
    requires i < |frames|
    ensures IsEnding(frames[i]) ==> Endings(frames) > 0
    ensures frames[i].Decision? ==> Decisions(frames) > 0
  {
    if i > 0 {
      EndingIsCounted(frames[1..], i - 1);
    }
  }

  // ---- more that holds of one offer ----

  predicate Decided(phase: Phase) { phase.Running? || phase.Finishing? || phase.Gone? }

  predicate Undecided(status: Status) { status.Unseen? || status.Pending? }

  predicate Over(status: Status) { status.Closing? || status.Closed? }

  /** Once the receiver has made its decision it is in exactly one place. */
  ghost predicate OneDecision(o: Owned, t: Held, back: seq<Frame>) {
    (if t.decisionOwed then 1 else 0) + Decisions(back) + (if o.decision.Some? then 1 else 0) + (if Decided(o.phase) then 1 else 0)
    == if Undecided(t.status) then 0 else 1
  }

  /** A refusal is not followed by acceptance. */
  ghost predicate RefusalsStand(o: Owned, t: Held, back: seq<Frame>) {
    && (o.decision == Some(false) ==> !t.accepted)
    && (forall i | 0 <= i < |back| && back[i] == Decision(false) :: !t.accepted)
    && (t.refused ==> t.status.Closed? && !t.accepted)
    && (o.phase.Gone? ==> Over(t.status))
  }

  /** An accepted offer that is over has exactly one last answer until its owner takes it. */
  ghost predicate OneEnding(o: Owned, t: Held, back: seq<Frame>) {
    Endings(o.inbox) + Endings(back) == if t.accepted && Over(t.status) && !o.phase.Gone? then 1 else 0
  }

  ghost predicate NoneAfterEnding(frames: seq<Frame>) {
    forall i, j | 0 <= i < j < |frames| && IsEnding(frames[i]) :: !IsResult(frames[j])
  }

  /** It is the last answer, and answers come only from an offer accepted. */
  ghost predicate EndingIsLast(o: Owned, t: Held, back: seq<Frame>) {
    && NoneAfterEnding(o.inbox + back)
    && (forall i | 0 <= i < |back| && IsResult(back[i]) :: t.accepted && !o.phase.Gone?)
    && (o.inbox != [] ==> t.accepted && !o.phase.Gone?)
  }

  /** A request of the receiver is owed, on its way, or has been heard. */
  ghost predicate RequestsAreTraced(o: Owned, t: Held, back: seq<Frame>) {
    && (t.requested ==> t.requestsOwed > 0 || CancelFrame in back || o.heard.Some?)
    && (t.requestsOwed > 0 || CancelFrame in back || o.heard.Some? ==> t.accepted)
    && (o.heard == Some(true) ==> o.armed)
  }

  /** A cancel raised after acceptance is never lost. */
  ghost predicate CancelIsTraced(o: Owned, t: Held, forth: seq<Frame>) {
    && (o.armed ==> t.accepted && o.canceled)
    && (o.armed && t.status.Accepted? ==> o.cancelsOwed > 0 || CancelFrame in forth)
  }

  ghost predicate FramesAreTraced(o: Owned, t: Held, forth: seq<Frame>) {
    && (o.phase.Finishing? ==> Batch in forth || Over(t.status))
    && (!o.phase.Absent? && !o.phase.Created? ==> Manifest in forth || !t.status.Unseen?)
  }

  ghost predicate OfferMore(r: Record, forth: seq<Frame>, back: seq<Frame>) {
    && OneDecision(r.owner, r.taker, back) && RefusalsStand(r.owner, r.taker, back)
    && OneEnding(r.owner, r.taker, back) && EndingIsLast(r.owner, r.taker, back)
    && RequestsAreTraced(r.owner, r.taker, back) && CancelIsTraced(r.owner, r.taker, forth)
    && FramesAreTraced(r.owner, r.taker, forth)
  }

  // ---- moves ----

  lemma MoveKeepsDecision(z: Offered, n: nat, r: Record, p: Places, m: Move, forth: seq<Frame>, back: seq<Frame>)
    requires OfferMore(r, forth, back) && Consented(r, back) && CanMove(n, r, p, m)
    ensures var e := Moved(z, r, m);
            OneDecision(e.record.owner, e.record.taker, Plus(back, e.back)) && RequestsAreTraced(e.record.owner, e.record.taker, Plus(back, e.back))
  {
    hide Endings, NoneAfterEnding, CancelIsTraced, FramesAreTraced;
    var e := Moved(z, r, m);
    if e.back.Some? {
      CountsAppend(back, e.back.value);
    }
  }

  lemma MoveKeepsRefusals(z: Offered, n: nat, r: Record, p: Places, m: Move, forth: seq<Frame>, back: seq<Frame>)
    requires OfferInv(n, r, forth, back) && OfferMore(r, forth, back) && CanMove(n, r, p, m)
    ensures var e := Moved(z, r, m); RefusalsStand(e.record.owner, e.record.taker, Plus(back, e.back))
  {
    hide NoneAfterEnding, CancelIsTraced, FramesAreTraced, RequestsAreTraced, Introduced, InOrder, Accounted, Followed, NoneFenced;
    if m.TakeResult? {
      HeadEnds(n, r, forth, back);
    }
    if m.Accept? {
      NoDecisionYet(r, forth, back);
    }
    if m.TakeDecision? && r.owner.decision != Some(true) {
      RefusedOfferIsOver(r, forth, back);
    }
  }

  /** The answer that takes an owner out of its loop is the last one. */
  lemma HeadEnds(n: nat, r: Record, forth: seq<Frame>, back: seq<Frame>)
    requires OfferInv(n, r, forth, back) && OfferMore(r, forth, back) && r.owner.inbox != []
    ensures r.owner.phase.Finishing? ==> IsEnding(r.owner.inbox[0])
    ensures IsEnding(r.owner.inbox[0]) ==> r.owner.inbox == [r.owner.inbox[0]] && r.taker.accepted && Over(r.taker.status)
    ensures IsEnding(r.owner.inbox[0]) ==> Endings(back) == 0 && forall i | 0 <= i < |back| :: !IsResult(back[i])
  {
    hide Introduced, InOrder, Followed, NoneFenced;
    var inbox := r.owner.inbox;
    HeadsCount(inbox);
    if r.owner.phase.Finishing? {
      FinishedIsEmpty(n, r, forth, back);
      HeadCounts(inbox);
    }
    if IsEnding(inbox[0]) {
      NothingBehindEnding(inbox, back);
    }
  }

  lemma NothingBehindEnding(inbox: seq<Frame>, back: seq<Frame>)
    requires NoneAfterEnding(inbox + back) && inbox != [] && IsEnding(inbox[0])
    ensures forall i | 0 < i < |inbox| :: !IsResult(inbox[i])
    ensures forall i | 0 <= i < |back| :: !IsResult(back[i])
  {
    var all := inbox + back;
    assert all[0] == inbox[0];
    assert forall i | 0 < i < |inbox| :: all[i] == inbox[i];
    assert forall i | 0 <= i < |back| :: all[|inbox| + i] == back[i];
  }

  lemma RefusedOfferIsOver(r: Record, forth: seq<Frame>, back: seq<Frame>)
    requires OfferMore(r, forth, back) && Consented(r, back) && r.owner.decision.Some? && r.owner.decision != Some(true)
    ensures !r.taker.accepted && Over(r.taker.status) && r.owner.inbox == []
    ensures Endings(back) == 0 && forall i | 0 <= i < |back| :: !IsResult(back[i])
  {
    assert r.owner.decision.value == false;
    assert r.owner.decision == Some(false);
  }

  lemma NoDecisionYet(r: Record, forth: seq<Frame>, back: seq<Frame>)
    requires OfferMore(r, forth, back) && Undecided(r.taker.status)
    ensures r.owner.decision == None && forall i | 0 <= i < |back| :: !back[i].Decision?
  {
    forall i | 0 <= i < |back| ensures !back[i].Decision? {
      EndingIsCounted(back, i);
    }
  }

  lemma MoveKeepsEnding(z: Offered, n: nat, r: Record, p: Places, m: Move, forth: seq<Frame>, back: seq<Frame>)
    requires OfferInv(n, r, forth, back) && OfferMore(r, forth, back) && CanMove(n, r, p, m)
    ensures var e := Moved(z, r, m);
            OneEnding(e.record.owner, e.record.taker, Plus(back, e.back)) && EndingIsLast(e.record.owner, e.record.taker, Plus(back, e.back))
  {
    hide Decisions, CancelIsTraced, FramesAreTraced, RequestsAreTraced, Introduced, InOrder, Accounted, Followed, NoneFenced, Edges;
    var e := Moved(z, r, m);
    if e.back.Some? {
      CountsAppend(back, e.back.value);
      AppendsAfterEnding(r.owner.inbox, back, e.back.value);
    }
    if m.TakeDecision? && r.owner.decision != Some(true) {
      RefusedOfferIsOver(r, forth, back);
    }
    if m.TakeResult? {
      HeadEnds(n, r, forth, back);
      HeadsCount(r.owner.inbox);
      assert IsAnswer(r, r.owner.inbox[0]);
      ShorterAfterEnding(r.owner.inbox, back);
    }
  }

  lemma AppendsAfterEnding(inbox: seq<Frame>, back: seq<Frame>, frame: Frame)
    requires NoneAfterEnding(inbox + back) && (!IsResult(frame) || (forall i | 0 <= i < |inbox + back| :: !IsEnding((inbox + back)[i])))
    ensures NoneAfterEnding(inbox + (back + [frame]))
  {
    assert inbox + (back + [frame]) == (inbox + back) + [frame];
  }

  lemma ShorterAfterEnding(inbox: seq<Frame>, back: seq<Frame>)
    requires NoneAfterEnding(inbox + back) && inbox != []
    ensures NoneAfterEnding(inbox[1..] + back)
  {
    assert forall i | 0 <= i < |inbox| + |back| - 1 :: (inbox[1..] + back)[i] == (inbox + back)[i + 1];
  }

  lemma MoveKeepsTraces(z: Offered, n: nat, r: Record, p: Places, m: Move, forth: seq<Frame>, back: seq<Frame>)
    requires OfferMore(r, forth, back) && Consented(r, back) && CanMove(n, r, p, m)
    ensures var e := Moved(z, r, m);
            CancelIsTraced(e.record.owner, e.record.taker, Plus(forth, e.forth)) && FramesAreTraced(e.record.owner, e.record.taker, Plus(forth, e.forth))
  {
    hide Endings, NoneAfterEnding;
  }

  lemma MoveKeepsMore(z: Offered, n: nat, r: Record, p: Places, m: Move, forth: seq<Frame>, back: seq<Frame>)
    requires OfferInv(n, r, forth, back) && OfferMore(r, forth, back) && CanMove(n, r, p, m)
    ensures var e := Moved(z, r, m); OfferMore(e.record, Plus(forth, e.forth), Plus(back, e.back))
  {
    hide CanMove, Plus, OneDecision, RefusalsStand, OneEnding, EndingIsLast, RequestsAreTraced, CancelIsTraced, FramesAreTraced, Consented;
    MoveKeepsDecision(z, n, r, p, m, forth, back);
    MoveKeepsRefusals(z, n, r, p, m, forth, back);
    MoveKeepsEnding(z, n, r, p, m, forth, back);
    MoveKeepsTraces(z, n, r, p, m, forth, back);
  }

  // ---- frames that reach the receiver ----

  lemma HeardKeepsDecision(z: Offered, n: nat, r: Record, p: Places, room: bool, overlap: bool, forth: seq<Frame>, back: seq<Frame>)
    requires OfferInv(n, r, forth, back) && OfferMore(r, forth, back) && forth != []
    ensures var e := Heard(z, r, p, forth[0], room, overlap);
            !e.broken ==>
              var o, t, back' := e.record.owner, e.record.taker, Plus(back, e.back);
              OneDecision(o, t, back') && RefusalsStand(o, t, back') && RequestsAreTraced(o, t, back')
  {
    hide NoneAfterEnding, OneEnding, EndingIsLast, Endings, CancelIsTraced, FramesAreTraced, InOrder, Accounted, Followed, NoneFenced, Edges, ClosedWell, Answered;
    var e := Heard(z, r, p, forth[0], room, overlap);
    if e.back.Some? {
      CountsAppend(back, e.back.value);
    }
  }

  lemma HeardKeepsOneEnding(z: Offered, n: nat, r: Record, p: Places, room: bool, overlap: bool, forth: seq<Frame>, back: seq<Frame>)
    requires OfferInv(n, r, forth, back) && OfferMore(r, forth, back) && forth != []
    ensures var e := Heard(z, r, p, forth[0], room, overlap);
            !e.broken ==> OneEnding(e.record.owner, e.record.taker, Plus(back, e.back))
  {
    hide NoneAfterEnding, OneDecision, RequestsAreTraced, CancelIsTraced, FramesAreTraced, InOrder, Accounted, Followed, NoneFenced, Edges;
    var e := Heard(z, r, p, forth[0], room, overlap);
    if e.back.Some? {
      CountsAppend(back, e.back.value);
    }
  }

  lemma HeardKeepsEndingLast(z: Offered, n: nat, r: Record, p: Places, room: bool, overlap: bool, forth: seq<Frame>, back: seq<Frame>)
    requires OfferInv(n, r, forth, back) && OfferMore(r, forth, back) && forth != []
    ensures var e := Heard(z, r, p, forth[0], room, overlap);
            !e.broken ==> EndingIsLast(e.record.owner, e.record.taker, Plus(back, e.back))
  {
    hide CancelIsTraced, FramesAreTraced, RequestsAreTraced, OneDecision, OneEnding, InOrder, Accounted, Followed, NoneFenced, Edges, Introduced, ClosedWell, Answered;
    var e := Heard(z, r, p, forth[0], room, overlap);
    if e.back.Some? && !e.broken {
      if IsResult(e.back.value) {
        assert r.taker.status.Accepted?;
        NoEndingYet(r, forth, back);
      }
      AppendsAfterEnding(r.owner.inbox, back, e.back.value);
    }
  }

  lemma NoEndingYet(r: Record, forth: seq<Frame>, back: seq<Frame>)
    requires OfferMore(r, forth, back) && r.taker.status.Accepted?
    ensures forall i | 0 <= i < |r.owner.inbox + back| :: !IsEnding((r.owner.inbox + back)[i])
  {
    var inbox := r.owner.inbox;
    forall i | 0 <= i < |inbox + back| ensures !IsEnding((inbox + back)[i]) {
      if i < |inbox| {
        EndingIsCounted(inbox, i);
      } else {
        EndingIsCounted(back, i - |inbox|);
      }
    }
  }

  lemma InTail(frames: seq<Frame>, frame: Frame)
    requires frames != [] && frame in frames && frames[0] != frame
    ensures frame in frames[1..]
  {
    var i :| 0 <= i < |frames| && frames[i] == frame;
    assert frames[1..][i - 1] == frame;
  }

  lemma HeardKeepsTraces(z: Offered, r: Record, p: Places, room: bool, overlap: bool, forth: seq<Frame>, back: seq<Frame>)
    requires OfferMore(r, forth, back) && Introduced(r, forth) && Consented(r, back) && forth != []
    requires r.taker.status.Accepted? ==> p.incoming
    ensures var e := Heard(z, r, p, forth[0], room, overlap);
            !e.broken ==> CancelIsTraced(e.record.owner, e.record.taker, forth[1..]) && FramesAreTraced(e.record.owner, e.record.taker, forth[1..])
  {
    hide Endings, NoneAfterEnding, Decisions;
    if CancelFrame in forth && forth[0] != CancelFrame {
      InTail(forth, CancelFrame);
    }
    if Batch in forth && forth[0] != Batch {
      InTail(forth, Batch);
    }
    if Manifest in forth && forth[0] != Manifest {
      InTail(forth, Manifest);
    }
  }

  lemma HeardKeepsMore(z: Offered, n: nat, r: Record, p: Places, room: bool, overlap: bool, forth: seq<Frame>, back: seq<Frame>)
    requires OfferInv(n, r, forth, back) && OfferMore(r, forth, back) && forth != [] && (r.taker.status.Accepted? ==> p.incoming)
    ensures var e := Heard(z, r, p, forth[0], room, overlap);
            !e.broken ==> OfferMore(e.record, Plus(forth[1..], e.forth), Plus(back, e.back))
  {
    hide OneDecision, RefusalsStand, OneEnding, EndingIsLast, RequestsAreTraced, CancelIsTraced, FramesAreTraced, Consented, Introduced;
    HeardKeepsDecision(z, n, r, p, room, overlap, forth, back);
    HeardKeepsOneEnding(z, n, r, p, room, overlap, forth, back);
    HeardKeepsEndingLast(z, n, r, p, room, overlap, forth, back);
    HeardKeepsTraces(z, r, p, room, overlap, forth, back);
  }

  // ---- frames that reach the owner ----

  lemma HeededKeepsMore(n: nat, r: Record, p: Places, forth: seq<Frame>, back: seq<Frame>)
    requires OfferInv(n, r, forth, back) && OfferMore(r, forth, back) && back != []
    requires back[0].Decision? ==> r.owner.decision == None
    ensures var e := Heeded(r, p, back[0]);
            !e.broken ==> OfferMore(e.record, Plus(forth, e.forth), Plus(back[1..], e.back))
  {
    hide InOrder, Accounted, Followed, NoneFenced, Edges, Introduced, Decisions, Endings, NoneAfterEnding;
    var e := Heeded(r, p, back[0]);
    HeadsCount(back);
    CountsAppend(r.owner.inbox, back[0]);
    assert forall i | 0 <= i < |back| - 1 :: back[1..][i] == back[i + 1];
    MovedToInbox(r.owner.inbox, back);
    if CancelFrame in back && back[0] != CancelFrame {
      InTail(back, CancelFrame);
    }
  }

  lemma MovedToInbox(inbox: seq<Frame>, back: seq<Frame>)
    requires NoneAfterEnding(inbox + back) && back != []
    ensures NoneAfterEnding(inbox + [back[0]] + back[1..]) && NoneAfterEnding(inbox + back[1..])
  {
    assert inbox + [back[0]] + back[1..] == inbox + back;
    forall i, j | 0 <= i < j < |inbox + back[1..]| && IsEnding((inbox + back[1..])[i]) ensures !IsResult((inbox + back[1..])[j]) {
      var i', j' := if i < |inbox| then i else i + 1, if j < |inbox| then j else j + 1;
      assert (inbox + back)[i'] == (inbox + back[1..])[i] && (inbox + back)[j'] == (inbox + back[1..])[j];
    }
  }

  // ---- offers made and offers canceled ----

  lemma SubmittedMore(r: Record, n: nat, forth: seq<Frame>, back: seq<Frame>)
    requires OfferMore(r, forth, back) && r.owner.phase.Absent?
    ensures OfferMore(Submitted(r, n), forth, back)
  {
    hide FilesBelow, Decisions, Endings, NoneAfterEnding;
  }

  lemma CanceledMore(r: Record, owner: bool, forth: seq<Frame>, back: seq<Frame>)
    requires OfferMore(r, forth, back) && (!owner ==> r.taker.accepted)
    ensures OfferMore(CancelPicked(r, owner), forth, back)
  {
    hide Decisions, Endings, NoneAfterEnding;
  }

  // ---- the whole system ----

  /** An offer of the accepting peer keeps its slot from its manifest on; an owner that has
      an answer still has its slot, and so does one that was told to cancel. */
  ghost predicate PlacedMore(z: Offered, o: Owned, own: Slots) {
    && (z.Own? && (o.phase.Waiting? || o.phase.Running? || o.phase.Finishing?) ==> InSlot(own, Own(z.handle)))
    && (o.inbox != [] ==> InSlot(own, Own(z.handle)))
    && (o.canceled && !o.phase.Gone? ==> InSlot(own, Own(z.handle)))
  }

  /** Only an offer of the connecting peer can be flagged before it has been accepted, and
      then only if nobody's request has reached its owner. */
  ghost predicate FlaggedInTime(z: Offered, o: Owned) {
    o.canceled && !o.phase.Gone? && (z.Own? || o.heard.Some?) ==> o.armed
  }

  /** One peer's name of an offer in its own slots, as the accepting peer has it. */
  function Named(atCoordinator: bool, o: Offered): Offered {
    if atCoordinator then o else if o.Own? then Peers(o.handle) else Own(o.handle)
  }

  /** A transfer flag stands for an offer in its slot that has been accepted. */
  ghost predicate FlagIsTrue(s: System, slots: Slots, atCoordinator: bool) {
    slots.transferring.Some? ==>
      InSlot(slots, slots.transferring.value) && RecordOf(s, Named(atCoordinator, slots.transferring.value)).taker.accepted
  }

  ghost predicate MoreHolds(s: System, z: Offered) {
    && OfferMore(RecordOf(s, z), Forth(s, z), Back(s, z))
    && PlacedMore(z, RecordOf(s, z).owner, OwnerSlots(s, z))
    && FlaggedInTime(z, RecordOf(s, z).owner)
  }

  ghost predicate More(files: Offered -> nat, s: System) {
    && Inv(files, s)
    && (!s.broken ==> (forall z :: MoreHolds(s, z)) && FlagIsTrue(s, s.coordinator.slots, true) && FlagIsTrue(s, s.peer.slots, false))
  }

  lemma MoreOf(files: Offered -> nat, s: System, z: Offered)
    requires More(files, s) && !s.broken
    ensures OfferHolds(files, s, z) && MoreHolds(s, z) && Roles(s)
  {
  }

  /** The slots of one peer after an operation on `z`: the flag still stands for an
      accepted offer. */
  lemma FlagStaysTrue(s: System, s': System, slots: Slots, op: Option<Op>, atCoordinator: bool, z: Offered)
    requires FlagIsTrue(s, slots, atCoordinator) && OneSlot(slots) && op != Some(CancelOp)
    requires forall w | RecordOf(s, w).taker.accepted :: RecordOf(s', w).taker.accepted
    requires op.Some? && op.value.TransferOp? ==> Named(atCoordinator, op.value.o) == z && RecordOf(s', z).taker.accepted
    ensures FlagIsTrue(s', SlotsAfter(slots, op), atCoordinator)
  {
    if slots.transferring.Some? && op != Some(ClearOp(slots.transferring.value)) {
      SlotsKeepOffer(slots, op, slots.transferring.value);
    }
  }

  lemma EffectsKeepMore(files: Offered -> nat, s: System, t: System, z: Offered, e: Effects)
    requires More(files, s) && !s.broken && !e.broken && !t.broken && Inv(files, OneOffer.Apply(t, z, e))
    requires t.offers == s.offers && t.coordinator == s.coordinator && t.peer == s.peer
    requires forall w | w != z :: Of(t.toPeer, w) == Of(s.toPeer, w) && Of(t.toCoordinator, w) == Of(s.toCoordinator, w)
    requires OfferMore(e.record, Plus(Forth(t, z), e.forth), Plus(Back(t, z), e.back))
    requires PlacedMore(z, e.record.owner, SlotsAfter(OwnerSlots(s, z), e.owner)) && FlaggedInTime(z, e.record.owner)
    requires RecordOf(s, z).taker.accepted ==> e.record.taker.accepted
    requires e.owner.Some? && e.owner.value.ClearOp? ==> e.owner.value.o == Own(z.handle)
    requires e.receiver.Some? && e.receiver.value.ClearOp? ==> e.receiver.value.o == Peers(z.handle)
    requires e.owner.Some? && e.owner.value.TransferOp? ==> e.owner.value.o == Own(z.handle) && e.record.taker.accepted
    requires e.receiver.Some? && e.receiver.value.TransferOp? ==> e.receiver.value.o == Peers(z.handle) && e.record.taker.accepted
    requires e.owner != Some(CancelOp) && e.receiver != Some(CancelOp)
    ensures More(files, OneOffer.Apply(t, z, e))
  {
    hide Inv, OfferMore, SlotsAfter, RunAfter, OneSlot, InSlot, Of, Plus, FlagIsTrue;
    var s' := OneOffer.Apply(t, z, e);
    InvHolds(files, s, z);
    PeerHasOneSlot(s);
    RunHasSlots(s.coordinator, if z.Own? then e.owner else e.receiver);
    RunHasSlots(s.peer, if z.Own? then e.receiver else e.owner);
    forall w ensures MoreHolds(s', w) {
      OfAppend(t.toPeer, z, if z.Own? then e.forth else e.back, w);
      OfAppend(t.toCoordinator, z, if z.Own? then e.back else e.forth, w);
      assert MoreHolds(s, w);
      if w != z {
        OtherStaysPlaced(s, w, z, e);
        assert RecordOf(s', w) == RecordOf(s, w);
      } else {
        assert RecordOf(s', z) == e.record;
      }
    }
    assert forall w | w != z :: RecordOf(s', w) == RecordOf(s, w);
    FlagStaysTrue(s, s', s.coordinator.slots, if z.Own? then e.owner else e.receiver, true, z);
    FlagStaysTrue(s, s', s.peer.slots, if z.Own? then e.receiver else e.owner, false, z);
  }

  lemma OtherStaysPlaced(s: System, w: Offered, z: Offered, e: Effects)
    requires Roles(s) && w != z && PlacedMore(w, RecordOf(s, w).owner, OwnerSlots(s, w))
    requires e.owner.Some? && e.owner.value.ClearOp? ==> e.owner.value.o == Own(z.handle)
    requires e.receiver.Some? && e.receiver.value.ClearOp? ==> e.receiver.value.o == Peers(z.handle)
    ensures PlacedMore(w, RecordOf(s, w).owner, SlotsAfter(OwnerSlots(s, w), if w.Own? == z.Own? then e.owner else e.receiver))
  {
    hide SlotsAfter, InSlot;
    PeerHasOneSlot(s);
    if InSlot(OwnerSlots(s, w), Own(w.handle)) {
      SlotsKeepOffer(OwnerSlots(s, w), if w.Own? == z.Own? then e.owner else e.receiver, Own(w.handle));
    }
  }

  // ---- the actions ----

  lemma MoveStaysPlaced(files: Offered -> nat, s: System, z: Offered, m: Move)
    requires OfferHolds(files, s, z) && MoreHolds(s, z) && Roles(s) && CanMove(files(z), RecordOf(s, z), PlacesOf(s, z), m)
    ensures var e := Moved(z, RecordOf(s, z), m);
            && PlacedMore(z, e.record.owner, SlotsAfter(OwnerSlots(s, z), e.owner)) && FlaggedInTime(z, e.record.owner)
            && (RecordOf(s, z).taker.accepted ==> e.record.taker.accepted)
            && (e.owner.Some? && e.owner.value.TransferOp? ==> e.owner.value.o == Own(z.handle) && e.record.taker.accepted)
            && (e.receiver.Some? && e.receiver.value.TransferOp? ==> e.receiver.value.o == Peers(z.handle) && e.record.taker.accepted)
  {
    hide Clear, Of, Endings, Decisions, NoneAfterEnding, InOrder, Followed, Accounted, Introduced, NoneFenced, Quiet;
    var r := RecordOf(s, z);
    if m.TakeDecision? && r.owner.decision != Some(true) {
      RefusedOfferIsOver(r, Forth(s, z), Back(s, z));
    }
    if m.TakeResult? && r.owner.inbox != [] {
      HeadEnds(files(z), r, Forth(s, z), Back(s, z));
    }
  }

  lemma MoveKeepsAll(files: Offered -> nat, s: System, z: Offered, m: Move)
    requires More(files, s) && !s.broken && CanMove(files(z), RecordOf(s, z), PlacesOf(s, z), m)
    ensures More(files, OneOffer.Apply(s, z, Moved(z, RecordOf(s, z), m)))
  {
    hide More, Inv, OfferInv, OfferMore, Of, Plus, SlotsAfter, Placed, PlacedMore, CanMove;
    MoreOf(files, s, z);
    MoreIsInv(files, s);
    MoveKeepsInv(files, s, z, m);
    MoveKeepsPlaced(s, z, files(z), m);
    MoveStaysPlaced(files, s, z, m);
    MoveKeepsMore(z, files(z), RecordOf(s, z), PlacesOf(s, z), m, Forth(s, z), Back(s, z));
    MoveNeverBreaks(z, RecordOf(s, z), m);
    EffectsKeepMore(files, s, s, z, Moved(z, RecordOf(s, z), m));
  }

  lemma MoreIsInv(files: Offered -> nat, s: System)
    requires More(files, s)
    ensures Inv(files, s)
  {
  }

  lemma MoveNeverBreaks(z: Offered, r: Record, m: Move)
    ensures !Moved(z, r, m).broken
  {
  }

  lemma NewOfferKeepsAll(files: Offered -> nat, s: System, z: Offered)
    requires More(files, s) && !s.broken && RecordOf(s, z).owner.phase.Absent?
    ensures More(files, OneOffer.Apply(s, z, AtOwner(Submitted(RecordOf(s, z), files(z)), SubmitOp(z.handle))))
  {
    hide More, Inv, OfferInv, OfferMore, Of, SlotsAfter, Placed, FilesBelow;
    MoreOf(files, s, z);
    MoreIsInv(files, s);
    NewOfferKeepsInv(files, s, z);
    SubmittedMore(RecordOf(s, z), files(z), Forth(s, z), Back(s, z));
    PeerHasOneSlot(s);
    if InSlot(OwnerSlots(s, z), Own(z.handle)) {
      SlotsKeepOffer(OwnerSlots(s, z), Some(SubmitOp(z.handle)), Own(z.handle));
    }
    EffectsKeepMore(files, s, s, z, AtOwner(Submitted(RecordOf(s, z), files(z)), SubmitOp(z.handle)));
  }

  lemma PickedIsAccepted(files: Offered -> nat, s: System, atCoordinator: bool)
    requires More(files, s) && !s.broken && Picked(s, atCoordinator).Some?
    ensures var z := Picked(s, atCoordinator).value;
            && (z.Own? || atCoordinator ==> RecordOf(s, z).taker.accepted)
            && (atCoordinator == z.Own? ==> InSlot(OwnerSlots(s, z), Own(z.handle)))
  {
    hide Inv, OfferInv, OfferMore, Of;
    MoreOf(files, s, Picked(s, atCoordinator).value);
    assert FlagIsTrue(s, if atCoordinator then s.coordinator.slots else s.peer.slots, atCoordinator);
  }

  lemma CanceledInTime(z: Offered, r: Record, owner: bool, forth: seq<Frame>, back: seq<Frame>)
    requires OfferMore(r, forth, back) && FlaggedInTime(z, r.owner) && (owner && z.Own? ==> r.taker.accepted)
    ensures FlaggedInTime(z, CancelPicked(r, owner).owner)
  {
    hide OneDecision, RefusalsStand, OneEnding, EndingIsLast, FramesAreTraced;
  }

  lemma CancelKeepsAll(files: Offered -> nat, s: System, atCoordinator: bool)
    requires More(files, s) && !s.broken && Picked(s, atCoordinator).Some?
    ensures var z := Picked(s, atCoordinator).value;
            More(files, OneOffer.Apply(s, z, Just(CancelPicked(RecordOf(s, z), atCoordinator == z.Own?))))
  {
    hide More, Inv, OfferInv, OfferMore, Of, Placed, Picked;
    var z := Picked(s, atCoordinator).value;
    MoreOf(files, s, z);
    MoreIsInv(files, s);
    PickedIsAccepted(files, s, atCoordinator);
    CancelKeepsInv(files, s, z, atCoordinator == z.Own?);
    CanceledMore(RecordOf(s, z), atCoordinator == z.Own?, Forth(s, z), Back(s, z));
    CanceledInTime(z, RecordOf(s, z), atCoordinator == z.Own?, Forth(s, z), Back(s, z));
    EffectsKeepMore(files, s, s, z, Just(CancelPicked(RecordOf(s, z), atCoordinator == z.Own?)));
  }

  lemma HeardStaysPlaced(z: Offered, r: Record, p: Places, frame: Frame, room: bool, overlap: bool, own: Slots)
    requires PlacedMore(z, r.owner, own) && FlaggedInTime(z, r.owner) && !Heard(z, r, p, frame, room, overlap).broken
    ensures var e := Heard(z, r, p, frame, room, overlap);
            && PlacedMore(z, e.record.owner, SlotsAfter(own, e.owner)) && FlaggedInTime(z, e.record.owner)
            && e.record.taker.accepted == r.taker.accepted
            && e.owner == None && (e.receiver.Some? ==> e.receiver.value.ReceiveOp?)
  {
  }

  lemma HeededStaysPlaced(z: Offered, r: Record, p: Places, frame: Frame, own: Slots)
    requires PlacedMore(z, r.owner, own) && FlaggedInTime(z, r.owner) && !Heeded(r, p, frame).broken && (p.outgoing <==> InSlot(own, Own(z.handle)))
    ensures var e := Heeded(r, p, frame);
            && PlacedMore(z, e.record.owner, SlotsAfter(own, e.owner)) && FlaggedInTime(z, e.record.owner)
            && e.record.taker == r.taker
            && e.owner == None && e.receiver == None
  {
  }

  lemma DeliverKeepsAll(files: Offered -> nat, s: System, t: System, toCoordinator: bool)
    requires More(files, s) && !s.broken && Taken(s, t, toCoordinator) && CanDeliver(s, Head(s, toCoordinator), toCoordinator)
    ensures var sent := Head(s, toCoordinator); More(files, OneOffer.Apply(t, sent.offer, Arrived(t, sent, toCoordinator)))
  {
    hide More, Of, Inv, OfferInv, OfferMore, OneSlot, Heard, Heeded, Plus, SlotsAfter, HasTurn;
    var sent := Head(s, toCoordinator);
    var z, e := sent.offer, Arrived(t, sent, toCoordinator);
    ArrivedIgnoresWire(s, t, sent, toCoordinator);
    MoreOf(files, s, z);
    MoreIsInv(files, s);
    TakenFrames(s, t, toCoordinator);
    DeliverKeepsInv(files, s, t, toCoordinator);
    if e.broken {
      BrokenIsMore(files, OneOffer.Apply(t, z, e));
    } else {
      var r, p := RecordOf(s, z), PlacesOf(s, z);
      if GoesToOwner(toCoordinator, z) {
        assert Back(s, z)[1..] == Back(t, z) && Back(s, z)[0] == sent.frame;
        HeededKeepsMore(files(z), r, p, Forth(s, z), Back(s, z));
        HeededStaysPlaced(z, r, p, sent.frame, OwnerSlots(s, z));
      } else {
        var slots := ReceiverSlots(s, z);
        var room, overlap := slots.role == Outbound || |slots.coordinatorQueue| < MAX_QUEUED_OFFERS,
                             slots.role == Outbound && slots.incoming != None;
        assert Forth(s, z)[1..] == Forth(t, z) && Forth(s, z)[0] == sent.frame;
        HeardKeepsMore(z, files(z), r, p, room, overlap, Forth(s, z), Back(s, z));
        HeardStaysPlaced(z, r, p, sent.frame, room, overlap, OwnerSlots(s, z));
      }
      EffectsKeepMore(files, s, t, z, e);
    }
  }

  lemma BrokenIsMore(files: Offered -> nat, s: System)
    requires s.broken
    ensures More(files, s)
  {
  }

  lemma NextKeepsMore(files: Offered -> nat, s: System, a: Action)
    requires More(files, s)
    ensures More(files, Next(files, s, a))
  {
    hide More, OneOffer.Apply, Moved, Arrived, CanMove, Picked, RecordOf;
    if !s.broken {
      match a
      case NewOffer(z) =>
        if RecordOf(s, z).owner.phase.Absent? {
          NewOfferKeepsAll(files, s, z);
        }
      case OfferMove(z, m) =>
        if CanMove(files(z), RecordOf(s, z), PlacesOf(s, z), m) {
          MoveKeepsAll(files, s, z, m);
        }
      case CancelCommand(atCoordinator) =>
        if Picked(s, atCoordinator).Some? {
          CancelKeepsAll(files, s, atCoordinator);
        }
      case DeliverToPeer =>
        if s.toPeer != [] && CanDeliver(s, s.toPeer[0], false) {
          ArrivedIgnoresWire(s, s.(toPeer := s.toPeer[1..]), s.toPeer[0], false);
          DeliverKeepsAll(files, s, s.(toPeer := s.toPeer[1..]), false);
        }
      case DeliverToCoordinator =>
        if s.toCoordinator != [] && CanDeliver(s, s.toCoordinator[0], true) {
          ArrivedIgnoresWire(s, s.(toCoordinator := s.toCoordinator[1..]), s.toCoordinator[0], true);
          DeliverKeepsAll(files, s, s.(toCoordinator := s.toCoordinator[1..]), true);
        }
    }
  }

  lemma {:induction false} RunKeepsMore(files: Offered -> nat, s: System, actions: seq<Action>)
    requires More(files, s)
    ensures More(files, After(files, s, actions))
    decreases |actions|
  {
    hide More, Next;
    if actions != [] {
      NextKeepsMore(files, s, actions[0]);
      RunKeepsMore(files, Next(files, s, actions[0]), actions[1..]);
    }
  }

  lemma FreshHasMore()
    ensures OfferMore(FRESH, [], [])
  {
  }

  lemma StartHasMore(files: Offered -> nat)
    ensures More(files, Start())
  {
    hide Inv, OfferMore;
    StartHasInv(files);
    FreshHasMore();
    forall z ensures MoreHolds(Start(), z) {
      assert RecordOf(Start(), z) == FRESH && Forth(Start(), z) == [] && Back(Start(), z) == [];
    }
  }

  // ---- at rest ----

  /** What nothing obliges a peer to do: a user's decision, and a file's failure. */
  predicate Voluntary(m: Move) { m.Accept? || m.Reject? || (m.SendTerminal? && !m.complete) }

  ghost predicate NothingDue(n: nat, r: Record, p: Places) { forall m | !Voluntary(m) :: !CanMove(n, r, p, m) }

  /** Nothing is due from any offer and neither wire delivers: only users can go on, or a
      file that fails. */
  ghost predicate AtRest(files: Offered -> nat, s: System) {
    && !s.broken
    && (forall z :: NothingDue(files(z), RecordOf(s, z), PlacesOf(s, z)))
    && (s.toPeer != [] ==> !CanDeliver(s, s.toPeer[0], false))
    && (s.toCoordinator != [] ==> !CanDeliver(s, s.toCoordinator[0], true))
  }

  predicate Rested(n: nat, o: Owned, t: Held, p: Places) {
    && !(o.phase.Created? && p.turn)
    && !(o.phase.Waiting? && p.outgoing && o.decision.Some?)
    && (o.phase.Running? ==> o.got < n && (o.canceled || o.left == {}))
    && (o.phase.Running? || o.phase.Finishing? ==> o.inbox == [])
    && o.cancelsOwed == 0 && t.requestsOwed == 0 && !t.decisionOwed && !t.status.Closing?
  }

  lemma NothingIsDue(n: nat, r: Record, p: Places)
    requires NothingDue(n, r, p)
    ensures Rested(n, r.owner, r.taker, p)
  {
    assert !CanMove(n, r, p, SendManifest) && !CanMove(n, r, p, TakeDecision) && !CanMove(n, r, p, TakeResult);
    assert !CanMove(n, r, p, SendBatch) && !CanMove(n, r, p, SendCancel) && !CanMove(n, r, p, SendDecision);
    assert !CanMove(n, r, p, SendRequest) && !CanMove(n, r, p, Close);
    if r.owner.left != {} {
      var f :| f in r.owner.left;
      assert !CanMove(n, r, p, SendTerminal(f, true));
    }
  }

  lemma {:induction false} AnswersAreCounted(frames: seq<Frame>)
    requires forall i | 0 <= i < |frames| :: IsResult(frames[i])
    ensures |frames| == FileResults(frames) + Endings(frames)
  {
    if frames != [] {
      assert forall i | 0 <= i < |frames| - 1 :: frames[1..][i] == frames[i + 1];
      AnswersAreCounted(frames[1..]);
    }
  }

  /** An owner at rest has read what it is going to read. */
  lemma InboxIsRead(n: nat, r: Record, p: Places, forth: seq<Frame>, back: seq<Frame>)
    requires OfferInv(n, r, forth, back) && OfferMore(r, forth, back) && Rested(n, r.owner, r.taker, p)
    ensures |r.owner.inbox| <= 1
  {
    hide Introduced, InOrder, Accounted, Followed, NoneFenced, Decisions, NoneAfterEnding;
    AnswersAreCounted(r.owner.inbox);
  }

  /** So the frame at the head of a wire is never one that its owner has no room for. */
  lemma HeadIsTaken(n: nat, r: Record, p: Places, forth: seq<Frame>, back: seq<Frame>)
    requires OfferInv(n, r, forth, back) && OfferMore(r, forth, back) && Rested(n, r.owner, r.taker, p) && back != []
    ensures |r.owner.inbox| < RESULT_BUFFER && (back[0].Decision? ==> r.owner.decision == None)
  {
    hide OfferInv, RefusalsStand, OneEnding, EndingIsLast, CancelIsTraced, FramesAreTraced;
    InboxIsRead(n, r, p, forth, back);
    HeadsCount(back);
  }

  lemma HeadOf(s: System, toCoordinator: bool)
    requires Wire(s, toCoordinator) != [] && GoesToOwner(toCoordinator, Wire(s, toCoordinator)[0].offer)
    ensures var sent := Wire(s, toCoordinator)[0]; Back(s, sent.offer) != [] && Back(s, sent.offer)[0] == sent.frame
  {
  }

  lemma HeadIsDelivered(files: Offered -> nat, s: System, toCoordinator: bool)
    requires More(files, s) && !s.broken && Wire(s, toCoordinator) != []
    requires NothingDue(files(Wire(s, toCoordinator)[0].offer), RecordOf(s, Wire(s, toCoordinator)[0].offer), PlacesOf(s, Wire(s, toCoordinator)[0].offer))
    ensures CanDeliver(s, Wire(s, toCoordinator)[0], toCoordinator)
  {
    hide More, OfferInv, OfferMore, Of, Rested, NothingDue;
    var z := Wire(s, toCoordinator)[0].offer;
    if GoesToOwner(toCoordinator, z) {
      MoreOf(files, s, z);
      NothingIsDue(files(z), RecordOf(s, z), PlacesOf(s, z));
      HeadOf(s, toCoordinator);
      HeadIsTaken(files(z), RecordOf(s, z), PlacesOf(s, z), Forth(s, z), Back(s, z));
    }
  }

  lemma WireIsEmpty(files: Offered -> nat, s: System, toCoordinator: bool)
    requires More(files, s) && AtRest(files, s)
    ensures Wire(s, toCoordinator) == []
  {
    hide More, NothingDue, CanDeliver;
    if Wire(s, toCoordinator) != [] {
      HeadIsDelivered(files, s, toCoordinator);
    }
  }

  // ---- more that rest leaves ----

  /** So at rest every offer of the connecting peer has been announced. */
  lemma ManifestsAreSent(files: Offered -> nat, s: System, z: Offered)
    requires Admitted(s) && AtRest(files, s) && z.Peers?
    ensures !RecordOf(s, z).owner.phase.Created?
  {
    if RecordOf(s, z).owner.phase.Created? {
      var i :| 0 <= i < |s.peer.admitted| && s.peer.admitted[i] == Own(z.handle);
      var first := FirstHasTurn(s, i);
      NothingIsDue(files(first), RecordOf(s, first), PlacesOf(s, first));
      assert false;
    }
  }

  /** What an offer can look like at rest. */
  ghost predicate Settled(z: Offered, n: nat, o: Owned, t: Held, p: Places) {
    && !o.phase.Finishing? && !t.status.Closing?
    && (o.phase.Gone? ==> t.status.Closed?)
    && (o.phase.Running? ==> t.accepted && t.status.Accepted? && o.canceled && !o.armed && o.got < n)
    && (o.phase.Waiting? ==> !t.status.Unseen?)
    && (o.phase.Waiting? && !Undecided(t.status) ==> o.decision == Some(t.accepted) && !p.outgoing)
    && (o.phase.Waiting? && t.accepted ==> t.status.Accepted? && o.inbox == [] && !o.canceled && z.Peers?)
    && (t.accepted ==> o.phase.Waiting? || o.phase.Running? || o.phase.Gone?)
    && (t.requested ==> o.heard.Some?)
    && (o.armed ==> o.phase.Gone?)
  }

  lemma OfferIsSettled(z: Offered, n: nat, r: Record, p: Places, own: Slots)
    requires OfferInv(n, r, [], []) && OfferMore(r, [], []) && Rested(n, r.owner, r.taker, p)
    requires PlacedMore(z, r.owner, own) && FlaggedInTime(z, r.owner) && (p.outgoing <==> InSlot(own, Own(z.handle)))
    ensures Settled(z, n, r.owner, r.taker, p)
  {
    hide InOrder, Followed, NoneFenced, NoneAfterEnding;
    InboxIsRead(n, r, p, [], []);
    if r.owner.inbox == [] {
      assert Endings(r.owner.inbox) == 0 && FileResults(r.owner.inbox) == 0;
      if r.owner.decision.Some? && !r.owner.decision.value {
        assert r.owner.decision == Some(false);
      }
    }
  }

  lemma RestIsSettled(files: Offered -> nat, s: System, z: Offered)
    requires More(files, s) && AtRest(files, s)
    ensures Settled(z, files(z), RecordOf(s, z).owner, RecordOf(s, z).taker, PlacesOf(s, z))
    ensures Forth(s, z) == [] && Back(s, z) == []
  {
    hide More, OfferInv, OfferMore, Rested, NothingDue, PlacedMore, FlaggedInTime;
    WireIsEmpty(files, s, true);
    WireIsEmpty(files, s, false);
    MoreOf(files, s, z);
    NothingIsDue(files(z), RecordOf(s, z), PlacesOf(s, z));
    OfferIsSettled(z, files(z), RecordOf(s, z), PlacesOf(s, z), OwnerSlots(s, z));
  }

  // ---- the main results ----

  predicate Ended(r: Record) { r.owner.phase.Gone? && r.taker.status.Closed? }

  /** Accepted, with the acceptance at its owner, and yet not begun: another offer has the
      owner's slot. */
  predicate WaitsBehind(s: System, z: Offered) {
    && RecordOf(s, z).owner.phase.Waiting? && RecordOf(s, z).owner.decision == Some(true)
    && !PlacesOf(s, z).outgoing
  }

  /** Its owner was told to cancel it before it was accepted: it goes on, sends nothing,
      and the cancel frame came too early for its receiver. */
  predicate FlaggedEarly(s: System, z: Offered) {
    var o := RecordOf(s, z).owner;
    o.phase.Running? && o.canceled && !o.armed
  }

  lemma RestedOfferEnds(files: Offered -> nat, s: System, z: Offered)
    requires More(files, s) && AtRest(files, s) && RecordOf(s, z).taker.accepted
    ensures Ended(RecordOf(s, z)) <==> !WaitsBehind(s, z) && !FlaggedEarly(s, z)
    ensures z.Own? ==> Ended(RecordOf(s, z))
  {
    hide AtRest, More;
    RestIsSettled(files, s, z);
    RestIsUnbroken(files, s);
    MoreOf(files, s, z);
  }

  /** In every run of both peers that has come to rest, an accepted offer has ended unless
      it waits behind another or was flagged early; the accepting peer's own offers always
      have. So one that is neither can always go on. */
  lemma AcceptedOfferEndsIff(files: Offered -> nat, actions: seq<Action>, z: Offered)
    requires AtRest(files, After(files, Start(), actions)) && RecordOf(After(files, Start(), actions), z).taker.accepted
    ensures var s := After(files, Start(), actions);
            && (Ended(RecordOf(s, z)) <==> !WaitsBehind(s, z) && !FlaggedEarly(s, z))
            && (z.Own? ==> Ended(RecordOf(s, z)))
  {
    hide After, AtRest, More;
    StartHasMore(files);
    RunKeepsMore(files, Start(), actions);
    RestedOfferEnds(files, After(files, Start(), actions), z);
  }

  lemma RestIsUnbroken(files: Offered -> nat, s: System)
    requires AtRest(files, s)
    ensures !s.broken
  {
  }

  /** The run that issues a cancel command after `before`, and goes on. */
  function Canceling(files: Offered -> nat, before: seq<Action>, atCoordinator: bool, more: seq<Action>): System {
    After(files, Next(files, After(files, Start(), before), CancelCommand(atCoordinator)), more)
  }

  lemma CommandKeepsMore(files: Offered -> nat, before: seq<Action>, atCoordinator: bool, more: seq<Action>)
    ensures More(files, After(files, Start(), before))
    ensures More(files, Canceling(files, before, atCoordinator, more)) && Admitted(Canceling(files, before, atCoordinator, more))
  {
    hide After, Next, More;
    RunKeepsAdmitted(files, Start(), before);
    NextKeepsAdmitted(files, After(files, Start(), before), CancelCommand(atCoordinator));
    RunKeepsAdmitted(files, Next(files, After(files, Start(), before), CancelCommand(atCoordinator)), more);
    StartHasMore(files);
    RunKeepsMore(files, Start(), before);
    NextKeepsMore(files, After(files, Start(), before), CancelCommand(atCoordinator));
    RunKeepsMore(files, Next(files, After(files, Start(), before), CancelCommand(atCoordinator)), more);
  }

  lemma CommandLasts(files: Offered -> nat, s: System, atCoordinator: bool, more: seq<Action>, z: Offered)
    requires !s.broken && Picked(s, atCoordinator) == Some(z)
    ensures Lasts(CancelPicked(RecordOf(s, z), atCoordinator == z.Own?), RecordOf(After(files, Next(files, s, CancelCommand(atCoordinator)), more), z))
  {
    hide After;
    RunLasts(files, Next(files, s, CancelCommand(atCoordinator)), more, z);
  }

  /** The accepting peer's command, in every run: the offer it picks is the transfer, and at
      rest it has ended unless its owner still has it waiting behind another. */
  lemma AcceptingPeersCancelEndsIff(files: Offered -> nat, before: seq<Action>, more: seq<Action>, z: Offered)
    requires !After(files, Start(), before).broken && Picked(After(files, Start(), before), true) == Some(z)
    requires AtRest(files, Canceling(files, before, true, more))
    ensures var t := Canceling(files, before, true, more);
            Ended(RecordOf(t, z)) <==> !WaitsBehind(t, z)
  {
    hide After, AtRest, More, Picked, Next;
    var s, t := After(files, Start(), before), Canceling(files, before, true, more);
    CommandKeepsMore(files, before, true, more);
    PickedIsAccepted(files, s, true);
    CommandLasts(files, s, true, more, z);
    RestIsSettled(files, t, z);
    RestIsUnbroken(files, t);
    MoreOf(files, t, z);
  }

  lemma CanceledOfferRests(files: Offered -> nat, t: System, z: Offered)
    requires More(files, t) && Admitted(t) && AtRest(files, t) && z.Peers? && RecordOf(t, z).owner.canceled
    ensures Ended(RecordOf(t, z)) <==> !RecordOf(t, z).taker.status.Pending? && !FlaggedEarly(t, z)
    ensures RecordOf(t, z).owner.armed ==> Ended(RecordOf(t, z))
  {
    hide AtRest, More, OfferMore, OfferInv, Of, HasTurn;
    RestIsUnbroken(files, t);
    RestIsSettled(files, t, z);
    ManifestsAreSent(files, t, z);
    MoreOf(files, t, z);
  }

  /** The connecting peer's command: the offer it picks, once decided, has ended at rest
      unless it was flagged early; and it has ended if it had been accepted by then and was
      not flagged already. */
  lemma ConnectingPeersCancelEndsIff(files: Offered -> nat, before: seq<Action>, more: seq<Action>, z: Offered)
    requires !After(files, Start(), before).broken && Picked(After(files, Start(), before), false) == Some(z)
    requires AtRest(files, Canceling(files, before, false, more))
    ensures var s, t := After(files, Start(), before), Canceling(files, before, false, more);
            && (Ended(RecordOf(t, z)) <==> !RecordOf(t, z).taker.status.Pending? && !FlaggedEarly(t, z))
            && (RecordOf(s, z).taker.accepted && !RecordOf(s, z).owner.canceled ==> Ended(RecordOf(t, z)))
  {
    hide After, AtRest, More, Admitted, Picked, Next, Ended, FlaggedEarly;
    var s, t := After(files, Start(), before), Canceling(files, before, false, more);
    CommandKeepsMore(files, before, false, more);
    PickedIsAccepted(files, s, false);
    CommandLasts(files, s, false, more, z);
    if z.Peers? {
      CanceledOfferRests(files, t, z);
    } else {
      RestedOfferEnds(files, t, z);
      EndedIsOver(t, z);
    }
  }

  lemma EndedIsOver(s: System, z: Offered)
    requires Ended(RecordOf(s, z))
    ensures !RecordOf(s, z).taker.status.Pending? && !FlaggedEarly(s, z)
  {
  }
}
