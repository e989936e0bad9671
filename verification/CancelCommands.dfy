/** What a cancel command does to the offer it picks: it is decided when the frame it sends
    reaches the other peer. */
module CancelCommands {
  import opened Names
  import opened Coordinator
  import opened OneOffer
  import opened Steps
  import opened Standstill
  import opened Deadlock
  import opened Stopping

  // ---- what a step is to one offer ----

  /** The action delivers this frame of the offer, to its owner or to its receiver. */
  predicate Arrives(s: System, a: Action, z: Offered, frame: Frame, toOwner: bool) {
    && (a.DeliverToPeer? || a.DeliverToCoordinator?)
    && Wire(s, a.DeliverToCoordinator?) != [] && Wire(s, a.DeliverToCoordinator?)[0] == Sent(z, frame)
    && GoesToOwner(a.DeliverToCoordinator?, z) == toOwner
  }

  /** One of the users cancels, and this offer is picked. */
  predicate Picks(s: System, a: Action, z: Offered, byOwner: bool) {
    a.CancelCommand? && (a.atCoordinator == z.Own?) == byOwner && Picked(s, a.atCoordinator) == Some(z)
  }

  datatype Event =
    | Elsewhere
    | Made
    | Moves(move: Move)
    | IsPicked(byOwner: bool)
    | Hears(frame: Frame, room: bool, overlap: bool)
    | Heeds(frame: Frame)

  /** What becomes of the offer and of its frames. */
  ghost predicate Happens(files: Offered -> nat, s: System, s': System, a: Action, z: Offered, event: Event) {
    var r, r', p := RecordOf(s, z), RecordOf(s', z), PlacesOf(s, z);
    var forth, forth', back, back' := Forth(s, z), Forth(s', z), Back(s, z), Back(s', z);
    match event
    case Elsewhere => r' == r && forth' == forth && back' == back
    case Made => r.owner.phase.Absent? && r' == Submitted(r, files(z)) && forth' == forth && back' == back
    case Moves(m) =>
      var e := Moved(z, r, m);
      CanMove(files(z), r, p, m) && r' == e.record && forth' == Plus(forth, e.forth) && back' == Plus(back, e.back)
    case IsPicked(byOwner) => Picks(s, a, z, byOwner) && r' == CancelPicked(r, byOwner) && forth' == forth && back' == back
    case Hears(frame, room, overlap) =>
      var e := Heard(z, r, p, frame, room, overlap);
      !e.broken && Arrives(s, a, z, frame, false) && r' == e.record && forth == [frame] + forth' && back' == Plus(back, e.back)
    case Heeds(frame) =>
      !Heeded(r, p, frame).broken && Arrives(s, a, z, frame, true) && r' == Heeded(r, p, frame).record && forth' == forth && back == [frame] + back'
  }

  lemma AppliedFrames(t: System, z: Offered, e: Effects, w: Offered)
    requires !e.broken
    ensures var s' := OneOffer.Apply(t, z, e);
            && RecordOf(s', w) == (if w == z then e.record else RecordOf(t, w))
            && Forth(s', w) == (if w == z then Plus(Forth(t, w), e.forth) else Forth(t, w))
            && Back(s', w) == (if w == z then Plus(Back(t, w), e.back) else Back(t, w))
  {
    hide Of, Plus, RunAfter;
    OfAppend(t.toPeer, z, if z.Own? then e.forth else e.back, w);
    OfAppend(t.toCoordinator, z, if z.Own? then e.back else e.forth, w);
  }

  lemma ArrivalHappens(files: Offered -> nat, s: System, a: Action, z: Offered) returns (event: Event)
    requires !s.broken && (a.DeliverToPeer? || a.DeliverToCoordinator?) && StepOf(files, s, a).Some? && !StepOf(files, s, a).value.effects.broken
    ensures Happens(files, s, Taking(s, StepOf(files, s, a)), a, z, event)
    ensures Arrives(s, a, z, CancelFrame, false) ==> event.Hears? && event.frame == CancelFrame
  {
    hide Of, Heard, Heeded, Plus, PlacesOf, OneOffer.Apply;
    var toCoordinator, step := a.DeliverToCoordinator?, StepOf(files, s, a).value;
    var sent := Head(s, toCoordinator);
    TakenFrames(s, step.from, toCoordinator);
    AppliedFrames(step.from, sent.offer, step.effects, z);
    PlusNothing(Forth(step.from, z));
    PlusNothing(Back(step.from, z));
    if z != sent.offer {
      event := Elsewhere;
    } else if GoesToOwner(toCoordinator, z) {
      HeededSends(RecordOf(s, z), PlacesOf(s, z), sent.frame);
      event := Heeds(sent.frame);
    } else {
      var slots := ReceiverSlots(s, z);
      var room, overlap := slots.role == Outbound || |slots.coordinatorQueue| < MAX_QUEUED_OFFERS,
                           slots.role == Outbound && slots.incoming != None;
      HeardSends(z, RecordOf(s, z), PlacesOf(s, z), sent.frame, room, overlap);
      event := Hears(sent.frame, room, overlap);
    }
  }

  lemma HeededSends(r: Record, p: Places, frame: Frame)
    ensures Heeded(r, p, frame).forth == None && Heeded(r, p, frame).back == None
  {
  }

  lemma HeardSends(z: Offered, r: Record, p: Places, frame: Frame, room: bool, overlap: bool)
    ensures Heard(z, r, p, frame, room, overlap).forth == None
  {
  }

  lemma SomethingHappens(files: Offered -> nat, s: System, a: Action, z: Offered) returns (event: Event)
    requires !s.broken && !Next(files, s, a).broken
    ensures Happens(files, s, Next(files, s, a), a, z, event)
    ensures Arrives(s, a, z, CancelFrame, false) ==> event.Hears? && event.frame == CancelFrame
  {
    hide Of, Happens, Plus, OneOffer.Apply, Moved, Arrived, CanMove, CanDeliver, Picked, RecordOf, PlacesOf, Takes, FilesBelow, Next;
    CancelsAreDelivered(files, s, a, z);
    NextTakes(files, s, a);
    NoStepIsTaken(s);
    if StepOf(files, s, a) == None {
      NothingHappens(files, s, a, z);
      event := Elsewhere;
    } else if a.DeliverToPeer? || a.DeliverToCoordinator? {
      BreaksWithEffects(StepOf(files, s, a).value);
      event := ArrivalHappens(files, s, a, z);
    } else {
      event := LocalStepHappens(files, s, a, z);
    }
  }

  lemma CancelsAreDelivered(files: Offered -> nat, s: System, a: Action, z: Offered)
    ensures Arrives(s, a, z, CancelFrame, false) ==> StepOf(files, s, a).Some?
  {
  }

  lemma BreaksWithEffects(step: Step)
    ensures step.effects.broken ==> OneOffer.Apply(step.from, step.offer, step.effects).broken
  {
  }

  lemma NothingHappens(files: Offered -> nat, s: System, a: Action, z: Offered)
    ensures Happens(files, s, s, a, z, Elsewhere)
  {
  }

  lemma LocalStepHappens(files: Offered -> nat, s: System, a: Action, z: Offered) returns (event: Event)
    requires StepOf(files, s, a).Some? && !a.DeliverToPeer? && !a.DeliverToCoordinator?
    ensures Happens(files, s, Taking(s, StepOf(files, s, a)), a, z, event)
  {
    hide Of, Plus, OneOffer.Apply, Moved, CanMove, Picked, PlacesOf, Takes, FilesBelow;
    var step := StepOf(files, s, a).value;
    if a.OfferMove? {
      MoveNeverBreaks(a.z, RecordOf(s, a.z), a.move);
    }
    AppliedFrames(s, step.offer, step.effects, z);
    PlusNothing(Forth(s, z));
    PlusNothing(Back(s, z));
    if step.offer != z {
      event := Elsewhere;
    } else {
      event := match a
               case NewOffer(_) => Made
               case OfferMove(_, m) => Moves(m)
               case CancelCommand(atCoordinator) => IsPicked(atCoordinator == z.Own?)
               case _ => Elsewhere;
    }
  }

  lemma PlusNothing(frames: seq<Frame>)
    ensures Plus(frames, None) == frames
  {
  }

  // ---- the request of the peer that receives the offer ----

  lemma MovesKeepFlags(z: Offered, r: Record, m: Move)
    ensures var o, o' := r.owner, Moved(z, r, m).record.owner; o'.heard == o.heard && o'.canceled == o.canceled
  {
  }

  lemma HearingKeepsOwner(z: Offered, r: Record, p: Places, frame: Frame, room: bool, overlap: bool)
    ensures Heard(z, r, p, frame, room, overlap).record.owner == r.owner
  {
  }

  lemma HeedingRaisesFlags(r: Record, p: Places, frame: Frame)
    ensures var o, o' := r.owner, Heeded(r, p, frame).record.owner;
            if frame.CancelFrame? then o'.heard == Some(p.outgoing) && o'.canceled == (o.canceled || p.outgoing)
            else o'.heard == o.heard && o'.canceled == o.canceled
  {
  }

  lemma HeardChanges(files: Offered -> nat, s: System, s': System, a: Action, z: Offered, event: Event)
    requires Happens(files, s, s', a, z, event) && StopHolds(s, z)
    ensures var heard, heard' := RecordOf(s, z).owner.heard, RecordOf(s', z).owner.heard;
            heard' == heard || (heard == None && Arrives(s, a, z, CancelFrame, true) && heard' == Some(PlacesOf(s, z).outgoing))
  {
    hide Forth, Back, EndingIsTold, LateIsBehind, FlagHits, PlacesOf, FilesBelow, Plus, Picks, Arrives, Heard, Heeded, Moved, CanMove, Cancels;
    var r, p := RecordOf(s, z), PlacesOf(s, z);
    match event
    case Moves(m) => MovesKeepFlags(z, r, m);
    case Hears(frame, room, overlap) => HearingKeepsOwner(z, r, p, frame, room, overlap);
    case Heeds(frame) =>
      HeedingRaisesFlags(r, p, frame);
      HeadIsCounted(frame, Back(s', z));
    case _ =>
  }

  lemma CanceledChanges(files: Offered -> nat, s: System, s': System, a: Action, z: Offered, event: Event)
    requires Happens(files, s, s', a, z, event)
    ensures var o, o' := RecordOf(s, z).owner, RecordOf(s', z).owner;
            o'.canceled ==> o.canceled || o'.heard == Some(true) || Picks(s, a, z, true)
  {
    hide Forth, Back, PlacesOf, FilesBelow, Plus, Picks, Arrives, Heard, Heeded, Moved, CanMove;
    var r, p := RecordOf(s, z), PlacesOf(s, z);
    match event
    case Moves(m) => MovesKeepFlags(z, r, m);
    case Hears(frame, room, overlap) => HearingKeepsOwner(z, r, p, frame, room, overlap);
    case Heeds(frame) => HeedingRaisesFlags(r, p, frame);
    case _ =>
  }

  lemma UnbrokenBefore(files: Offered -> nat, s: System, actions: seq<Action>)
    requires actions != [] && !After(files, s, actions).broken
    ensures !s.broken && !Next(files, s, actions[0]).broken
  {
    hide Next;
    if s.broken {
      BrokenStays(files, s, actions);
    }
    if Next(files, s, actions[0]).broken {
      BrokenStays(files, Next(files, s, actions[0]), actions[1..]);
    }
  }

  lemma NextIsTraced(files: Offered -> nat, s: System, a: Action)
    requires Traced(files, s)
    ensures Traced(files, Next(files, s, a))
  {
    hide More, Stops, Next;
    NextKeepsMore(files, s, a);
    NextKeepsStops(files, s, a);
  }

  /** Nothing but the arrival of a request is heard, and only once. */
  lemma NextHears(files: Offered -> nat, s: System, a: Action, z: Offered)
    requires Traced(files, s) && !s.broken && !Next(files, s, a).broken
    ensures var heard, heard' := RecordOf(s, z).owner.heard, RecordOf(Next(files, s, a), z).owner.heard;
            heard' == heard || (heard == None && Arrives(s, a, z, CancelFrame, true) && heard' == Some(PlacesOf(s, z).outgoing))
  {
    hide More, Stops, Next, Happens, Arrives, PlacesOf;
    StopsOf(s, z);
    var event := SomethingHappens(files, s, a, z);
    HeardChanges(files, s, Next(files, s, a), a, z, event);
  }

  lemma {:induction false} HeardLasts(files: Offered -> nat, s: System, actions: seq<Action>, z: Offered)
    requires Traced(files, s) && !After(files, s, actions).broken && RecordOf(s, z).owner.heard.Some?
    ensures RecordOf(After(files, s, actions), z).owner.heard == RecordOf(s, z).owner.heard
    decreases |actions|
  {
    hide Traced, Next;
    if actions != [] {
      UnbrokenBefore(files, s, actions);
      NextHears(files, s, actions[0], z);
      NextIsTraced(files, s, actions[0]);
      HeardLasts(files, Next(files, s, actions[0]), actions[1..], z);
    }
  }

  /** The moment at which the request arrives decides what is heard. */
  lemma {:induction false} RequestIsHeard(files: Offered -> nat, s: System, actions: seq<Action>, z: Offered) returns (k: nat)
    requires Traced(files, s) && !After(files, s, actions).broken
    requires RecordOf(s, z).owner.heard == None && RecordOf(After(files, s, actions), z).owner.heard.Some?
    ensures k < |actions|
    ensures var u := After(files, s, actions[..k]);
            && Arrives(u, actions[k], z, CancelFrame, true)
            && RecordOf(After(files, s, actions), z).owner.heard == Some(PlacesOf(u, z).outgoing)
    decreases |actions|
  {
    hide Traced, Next, Arrives, PlacesOf;
    UnbrokenBefore(files, s, actions);
    NextHears(files, s, actions[0], z);
    NextIsTraced(files, s, actions[0]);
    var s' := Next(files, s, actions[0]);
    if RecordOf(s', z).owner.heard == None {
      k := RequestIsHeard(files, s', actions[1..], z);
      k := k + 1;
      assert actions[..k][1..] == actions[1..][..k - 1];
    } else {
      HeardLasts(files, s', actions[1..], z);
      k := 0;
    }
  }

  /** The owner's user never cancels this offer. */
  ghost predicate OwnerIsQuiet(files: Offered -> nat, s: System, actions: seq<Action>, z: Offered)
    decreases |actions|
  {
    actions == [] || (!Picks(s, actions[0], z, true) && OwnerIsQuiet(files, Next(files, s, actions[0]), actions[1..], z))
  }

  lemma {:induction false} QuietOwnersHear(files: Offered -> nat, s: System, actions: seq<Action>, z: Offered)
    requires Traced(files, s) && !After(files, s, actions).broken && OwnerIsQuiet(files, s, actions, z)
    requires RecordOf(s, z).owner.canceled ==> RecordOf(s, z).owner.heard == Some(true)
    ensures RecordOf(After(files, s, actions), z).owner.canceled ==> RecordOf(After(files, s, actions), z).owner.heard == Some(true)
    decreases |actions|
  {
    hide Traced, Next, Picks, Happens;
    if actions != [] {
      UnbrokenBefore(files, s, actions);
      var s' := Next(files, s, actions[0]);
      var event := SomethingHappens(files, s, actions[0], z);
      CanceledChanges(files, s, s', actions[0], z, event);
      NextHears(files, s, actions[0], z);
      NextIsTraced(files, s, actions[0]);
      QuietOwnersHear(files, s', actions[1..], z);
    }
  }

  // ---- the cancel frame of the owner ----

  predicate FrameDue(s: System, z: Offered) { RecordOf(s, z).owner.cancelsOwed > 0 || CancelFrame in Forth(s, z) }

  lemma MovesStayDue(z: Offered, r: Record, m: Move, forth: seq<Frame>)
    requires r.owner.cancelsOwed > 0 || CancelFrame in forth
    ensures var e := Moved(z, r, m); e.record.owner.cancelsOwed > 0 || CancelFrame in Plus(forth, e.forth)
  {
  }

  lemma HeedingStaysDue(r: Record, p: Places, frame: Frame)
    ensures Heeded(r, p, frame).record.owner.cancelsOwed >= r.owner.cancelsOwed
  {
  }

  lemma FrameStaysDue(files: Offered -> nat, s: System, s': System, a: Action, z: Offered, event: Event)
    requires Happens(files, s, s', a, z, event) && FrameDue(s, z) && !Arrives(s, a, z, CancelFrame, false)
    ensures FrameDue(s', z)
  {
    hide Forth, Back, PlacesOf, FilesBelow, Plus, Picks, Arrives, Heard, Heeded, Moved, CanMove;
    var r, p := RecordOf(s, z), PlacesOf(s, z);
    match event
    case Moves(m) => MovesStayDue(z, r, m, Forth(s, z));
    case Hears(frame, room, overlap) => HearingKeepsOwner(z, r, p, frame, room, overlap);
    case Heeds(frame) => HeedingStaysDue(r, p, frame);
    case _ =>
  }

  lemma {:induction false} CancelIsHeard(files: Offered -> nat, s: System, actions: seq<Action>, z: Offered) returns (k: nat)
    requires !After(files, s, actions).broken && FrameDue(s, z) && !FrameDue(After(files, s, actions), z)
    ensures k < |actions| && Arrives(After(files, s, actions[..k]), actions[k], z, CancelFrame, false)
    ensures forall i: nat :: i < k ==> !Arrives(After(files, s, actions[..i]), actions[i], z, CancelFrame, false)
    decreases |actions|
  {
    hide Next, Arrives, FrameDue, Happens;
    UnbrokenBefore(files, s, actions);
    assert actions[..0] == [];
    if Arrives(s, actions[0], z, CancelFrame, false) {
      k := 0;
    } else {
      var event := SomethingHappens(files, s, actions[0], z);
      var s' := Next(files, s, actions[0]);
      FrameStaysDue(files, s, s', actions[0], z, event);
      k := CancelIsHeard(files, s', actions[1..], z);
      k := k + 1;
      forall i: nat | i < k ensures !Arrives(After(files, s, actions[..i]), actions[i], z, CancelFrame, false) {
        if i > 0 {
          assert actions[..i][1..] == actions[1..][..i - 1];
        }
      }
      assert actions[..k][1..] == actions[1..][..k - 1];
    }
  }

  lemma StoppedLasts(files: Offered -> nat, s: System, s': System, a: Action, z: Offered, event: Event)
    requires Happens(files, s, s', a, z, event) && Introduced(RecordOf(s, z), Forth(s, z)) && Stopped(RecordOf(s, z).taker)
    ensures Stopped(RecordOf(s', z).taker)
  {
    hide Of, HasTurn, FilesBelow;
    if event.Hears? {
      assert Forth(s, z)[0] == event.frame;
    }
  }

  lemma {:induction false} StoppedStays(files: Offered -> nat, s: System, actions: seq<Action>, z: Offered)
    requires Traced(files, s) && !After(files, s, actions).broken && Stopped(RecordOf(s, z).taker)
    ensures Stopped(RecordOf(After(files, s, actions), z).taker)
    decreases |actions|
  {
    hide More, Stops, Next, Happens, Stopped, Introduced, OfferMore;
    if actions != [] {
      UnbrokenBefore(files, s, actions);
      MoreOf(files, s, z);
      var event := SomethingHappens(files, s, actions[0], z);
      StoppedLasts(files, s, Next(files, s, actions[0]), actions[0], z, event);
      NextIsTraced(files, s, actions[0]);
      StoppedStays(files, Next(files, s, actions[0]), actions[1..], z);
    }
  }

  ghost predicate Dry(s: System, z: Offered) { DryRecord(RecordOf(s, z), Forth(s, z)) }

  /** No cancel frame is due or under way, none has arrived in time, and none will be made. */
  ghost predicate DryRecord(r: Record, forth: seq<Frame>) {
    r.owner.canceled && !r.taker.requested && r.owner.cancelsOwed == 0 && CancelFrame !in forth && !Stopped(r.taker)
  }

  lemma MovesStayDry(z: Offered, n: nat, r: Record, p: Places, m: Move, forth: seq<Frame>)
    requires CanMove(n, r, p, m) && DryRecord(r, forth)
    ensures var e := Moved(z, r, m); DryRecord(e.record, Plus(forth, e.forth))
  {
  }

  lemma HeardStaysDry(z: Offered, r: Record, p: Places, room: bool, overlap: bool, frame: Frame, rest: seq<Frame>)
    requires DryRecord(r, [frame] + rest)
    ensures var e := Heard(z, r, p, frame, room, overlap); DryRecord(e.record, rest)
  {
    assert ([frame] + rest)[0] == frame;
    assert CancelFrame in rest ==> CancelFrame in [frame] + rest;
  }

  lemma HeededStaysDry(r: Record, p: Places, forth: seq<Frame>, frame: Frame, rest: seq<Frame>)
    requires OneOfEach(r.owner, r.taker, forth, [frame] + rest) && DryRecord(r, forth)
    ensures DryRecord(Heeded(r, p, frame).record, forth)
  {
    HeadIsCounted(frame, rest);
  }

  lemma HeadIsCounted(frame: Frame, rest: seq<Frame>)
    ensures frame.CancelFrame? ==> Cancels([frame] + rest) > 0
  {
  }

  lemma StaysDry(files: Offered -> nat, s: System, s': System, a: Action, z: Offered, event: Event)
    requires Happens(files, s, s', a, z, event) && StopHolds(s, z) && Dry(s, z) && !RecordOf(s', z).taker.requested
    ensures Dry(s', z)
  {
    hide Of, PlacesOf, Heard, Heeded, Moved, CanMove, Picked, EndingIsTold, LateIsBehind, FlagHits, OneOfEach, Stopped, FilesBelow, Plus;
    var r, p := RecordOf(s, z), PlacesOf(s, z);
    match event
    case Elsewhere =>
    case Made =>
    case Moves(m) => MovesStayDry(z, files(z), r, p, m, Forth(s, z));
    case IsPicked(byOwner) =>
    case Hears(frame, room, overlap) => HeardStaysDry(z, r, p, room, overlap, frame, Forth(s', z));
    case Heeds(frame) => HeededStaysDry(r, p, Forth(s, z), frame, Back(s', z));
  }

  lemma {:induction false} DryRunsStop(files: Offered -> nat, s: System, actions: seq<Action>, z: Offered)
    requires Traced(files, s) && !After(files, s, actions).broken && Dry(s, z) && !RecordOf(After(files, s, actions), z).taker.requested
    ensures Dry(After(files, s, actions), z)
    decreases |actions|
  {
    hide More, Stops, Next, Happens, Dry, StopHolds;
    if actions != [] {
      var s' := Next(files, s, actions[0]);
      UnbrokenBefore(files, s, actions);
      StopsOf(s, z);
      RunLasts(files, s', actions[1..], z);
      var event := SomethingHappens(files, s, actions[0], z);
      StaysDry(files, s, s', actions[0], z, event);
      NextIsTraced(files, s, actions[0]);
      DryRunsStop(files, s', actions[1..], z);
    }
  }

  /** What the frame does when it arrives. */
  lemma CancelArrives(files: Offered -> nat, s: System, s': System, a: Action, z: Offered, event: Event)
    requires Happens(files, s, s', a, z, event) && StopHolds(s, z) && event.Hears? && event.frame == CancelFrame
    requires InOrder(RecordOf(s, z), Forth(s, z))
    requires RecordOf(s, z).taker.status.Accepted? ==> PlacesOf(s, z).incoming
    ensures RecordOf(s, z).taker.status.Accepted? ==> Stopped(RecordOf(s', z).taker)
    ensures !RecordOf(s, z).taker.status.Accepted? && !RecordOf(s, z).taker.requested ==> Dry(s', z)
  {
    hide Of, HasTurn, FilesBelow;
    assert Forth(s, z)[0] == CancelFrame;
    assert Forth(s', z) == Forth(s, z)[1..];
    CancelsAreFrames(Forth(s', z));
  }

  // ---- the main results ----

  /** Ended by a cancel frame, which its receiver has answered. */
  predicate EndedByCancel(r: Record) { Ended(r) && r.owner.phase.stopped && r.taker.status.stopped }

  /** Or else its batch had gone out before its cancel frame. */
  predicate Canceled(r: Record) { EndedByCancel(r) || (Ended(r) && r.owner.late) }

  /** Ended by its batch. */
  predicate Completed(r: Record) { Ended(r) && !r.owner.phase.stopped && !r.taker.status.stopped }

  lemma ArmedIsCanceled(files: Offered -> nat, t: System, z: Offered)
    requires Traced(files, t) && AtRest(files, t) && RecordOf(t, z).owner.armed
    ensures Canceled(RecordOf(t, z))
  {
    hide More, Stops, AtRest, EndingIsTold, LateIsBehind, OneOfEach;
    RestIsUnbroken(files, t);
    RestIsSettled(files, t, z);
    NothingOwed(files, t, z);
    StopsOf(t, z);
    ToldTheSame(t, z);
  }

  lemma NothingOwed(files: Offered -> nat, t: System, z: Offered)
    requires AtRest(files, t)
    ensures RecordOf(t, z).owner.cancelsOwed == 0
  {
    NothingIsDue(files(z), RecordOf(t, z), PlacesOf(t, z));
  }

  lemma ToldTheSame(t: System, z: Offered)
    requires StopHolds(t, z) && RecordOf(t, z).owner.phase.Gone?
    ensures RecordOf(t, z).owner.phase.stopped == Stopped(RecordOf(t, z).taker)
  {
  }

  lemma UnflaggedIsNotCanceled(t: System, z: Offered)
    requires StopHolds(t, z) && !RecordOf(t, z).owner.canceled
    ensures !Canceled(RecordOf(t, z)) && (Ended(RecordOf(t, z)) ==> Completed(RecordOf(t, z)))
  {
  }

  lemma StoppedIsEnded(files: Offered -> nat, t: System, z: Offered)
    requires Traced(files, t) && AtRest(files, t) && Stopped(RecordOf(t, z).taker)
    ensures EndedByCancel(RecordOf(t, z))
  {
    hide More, Stops, AtRest, LateIsBehind, FlagHits, OneOfEach;
    RestIsUnbroken(files, t);
    RestIsSettled(files, t, z);
    StopsOf(t, z);
  }

  /** The state after a user's cancel command. */
  function Commanded(files: Offered -> nat, before: seq<Action>, atCoordinator: bool): System {
    Next(files, After(files, Start(), before), CancelCommand(atCoordinator))
  }

  lemma CommandIsTraced(files: Offered -> nat, before: seq<Action>, atCoordinator: bool, after: seq<Action>)
    ensures Traced(files, After(files, Start(), before)) && Traced(files, Commanded(files, before, atCoordinator))
    ensures Traced(files, After(files, Commanded(files, before, atCoordinator), after))
    ensures Regular(files, After(files, Commanded(files, before, atCoordinator), after))
  {
    hide Traced, Regular, Next, After;
    StartIsTraced(files);
    RunIsTraced(files, Start(), before);
    NextIsTraced(files, After(files, Start(), before), CancelCommand(atCoordinator));
    RunIsTraced(files, Commanded(files, before, atCoordinator), after);
    StartIsRegular(files);
    RunIsRegular(files, Start(), before);
    NextStaysRegular(files, After(files, Start(), before), CancelCommand(atCoordinator));
    RunIsRegular(files, Commanded(files, before, atCoordinator), after);
  }

  /** What the receiver's command does in this very step. */
  lemma RequestIsMade(files: Offered -> nat, s: System, z: Offered)
    requires Traced(files, s) && !s.broken && Picked(s, !z.Own?) == Some(z) && !RecordOf(s, z).taker.requested
    ensures var v := Next(files, s, CancelCommand(!z.Own?));
            && !v.broken && RecordOf(v, z).taker.requested && RecordOf(v, z).taker.accepted
            && RecordOf(v, z).owner == RecordOf(s, z).owner && RecordOf(v, z).owner.heard == None
  {
    hide More, Stops, Picked, EndingIsTold, LateIsBehind, FlagHits;
    PickedIsAccepted(files, s, !z.Own?);
    StopsOf(s, z);
  }

  /** Step `k` of the run `after` delivers the request in a state in which `found` says
      whether the offer is in its owner's slot. */
  ghost predicate RequestFinds(files: Offered -> nat, v: System, after: seq<Action>, z: Offered, k: nat, found: bool) {
    && k < |after|
    && Arrives(After(files, v, after[..k]), after[k], z, CancelFrame, true)
    && PlacesOf(After(files, v, after[..k]), z).outgoing == found
  }

  /** A user cancels an offer of the other peer. In every run that comes to rest the request
      is delivered, and the offer is canceled if it is then in its owner's slot. If it is
      not, and its owner's user does not cancel it, it is not canceled: its owner never
      hears of it, and it completes or is blocked. */
  lemma RequestCancelsIff(files: Offered -> nat, before: seq<Action>, after: seq<Action>, z: Offered)
    requires var s := After(files, Start(), before);
             !s.broken && Picked(s, !z.Own?) == Some(z) && !RecordOf(s, z).taker.requested
    requires AtRest(files, After(files, Commanded(files, before, !z.Own?), after))
    ensures var v := Commanded(files, before, !z.Own?);
            var t := After(files, v, after);
            exists k, found ::
              && RequestFinds(files, v, after, z, k, found)
              && (found ==> Canceled(RecordOf(t, z)))
              && (!RecordOf(v, z).owner.canceled && OwnerIsQuiet(files, v, after, z) ==>
                    && (Canceled(RecordOf(t, z)) <==> found)
                    && (!found ==> !RecordOf(t, z).owner.canceled && (Completed(RecordOf(t, z)) <==> !Blocked(t, z))))
  {
    hide After, Next, Picked, AtRest, Traced, Regular, Arrives, PlacesOf, OwnerIsQuiet, Blocked;
    var s, v := After(files, Start(), before), Commanded(files, before, !z.Own?);
    var t := After(files, v, after);
    CommandIsTraced(files, before, !z.Own?, after);
    RequestIsMade(files, s, z);
    RestIsUnbroken(files, t);
    RunLasts(files, v, after, z);
    RequestedIsHeard(files, t, z);
    var k := RequestIsHeard(files, v, after, z);
    var found := PlacesOf(After(files, v, after[..k]), z).outgoing;
    assert RequestFinds(files, v, after, z, k, found);
    if found {
      HeardIsArmed(files, t, z);
      ArmedIsCanceled(files, t, z);
    }
    if !RecordOf(v, z).owner.canceled && OwnerIsQuiet(files, v, after, z) && !found {
      QuietOwnersHear(files, v, after, z);
      UnheardIsNotCanceled(files, t, z);
    }
  }

  lemma RequestedIsHeard(files: Offered -> nat, t: System, z: Offered)
    requires Traced(files, t) && AtRest(files, t) && RecordOf(t, z).taker.requested
    ensures RecordOf(t, z).owner.heard.Some?
  {
    hide More, Stops, AtRest;
    RestIsSettled(files, t, z);
  }

  lemma HeardIsArmed(files: Offered -> nat, t: System, z: Offered)
    requires Traced(files, t) && !t.broken && RecordOf(t, z).owner.heard == Some(true)
    ensures RecordOf(t, z).owner.armed
  {
    hide More, Stops, OneDecision, RefusalsStand, OneEnding, EndingIsLast, CancelIsTraced, FramesAreTraced, Of;
    MoreOf(files, t, z);
  }

  lemma UnheardIsNotCanceled(files: Offered -> nat, t: System, z: Offered)
    requires Traced(files, t) && Regular(files, t) && AtRest(files, t) && RecordOf(t, z).taker.accepted && !RecordOf(t, z).owner.canceled
    ensures !Canceled(RecordOf(t, z)) && (Completed(RecordOf(t, z)) <==> !Blocked(t, z))
  {
    hide More, Stops, AtRest, Regular, Blocked, StopHolds;
    RestIsUnbroken(files, t);
    StopsOf(t, z);
    UnflaggedIsNotCanceled(t, z);
    RestedOfferEndsOrBlocks(files, t, z);
  }

  lemma FlagIsRaised(files: Offered -> nat, s: System, z: Offered)
    requires Traced(files, s) && !s.broken && Picked(s, z.Own?) == Some(z) && !RecordOf(s, z).owner.canceled
    ensures var v := Next(files, s, CancelCommand(z.Own?)); !v.broken && FrameDue(v, z)
  {
    hide Traced, Picked;
  }

  lemma NoneIsDueAtRest(files: Offered -> nat, t: System, z: Offered)
    requires Traced(files, t) && AtRest(files, t)
    ensures !FrameDue(t, z)
  {
    hide More, Stops, AtRest;
    RestIsSettled(files, t, z);
    NothingOwed(files, t, z);
  }

  /** Step `k` is the first to deliver a cancel frame of the offer to its receiver, in a
      state in which `ready` says whether the offer is active there and accepted. */
  ghost predicate CancelFinds(files: Offered -> nat, v: System, after: seq<Action>, z: Offered, k: nat, ready: bool) {
    && k < |after|
    && Arrives(After(files, v, after[..k]), after[k], z, CancelFrame, false)
    && (forall i: nat :: i < k ==> !Arrives(After(files, v, after[..i]), after[i], z, CancelFrame, false))
    && (PlacesOf(After(files, v, after[..k]), z).incoming && RecordOf(After(files, v, after[..k]), z).taker.status.Accepted?) == ready
  }

  /** A user cancels an own offer. In every run that comes to rest the cancel frame is
      delivered, and the offer ends by it if it is then active and accepted there. If not,
      and the other user does not cancel it as well, it does not end by a cancel. */
  lemma OwnCancelStopsIff(files: Offered -> nat, before: seq<Action>, after: seq<Action>, z: Offered)
    requires var s := After(files, Start(), before);
             !s.broken && Picked(s, z.Own?) == Some(z) && !RecordOf(s, z).owner.canceled
    requires AtRest(files, After(files, Commanded(files, before, z.Own?), after))
    ensures var v := Commanded(files, before, z.Own?);
            var t := After(files, v, after);
            exists k, ready ::
              && CancelFinds(files, v, after, z, k, ready)
              && (ready ==> EndedByCancel(RecordOf(t, z)))
              && (!RecordOf(t, z).taker.requested ==> (EndedByCancel(RecordOf(t, z)) <==> ready))
  {
    hide After, Next, Picked, AtRest, Traced, Regular, Arrives, FrameDue, Dry;
    var s, v := After(files, Start(), before), Commanded(files, before, z.Own?);
    var t := After(files, v, after);
    CommandIsTraced(files, before, z.Own?, after);
    FlagIsRaised(files, s, z);
    RestIsUnbroken(files, t);
    NoneIsDueAtRest(files, t, z);
    var k := CancelIsHeard(files, v, after, z);
    var u := After(files, v, after[..k]);
    var ready := PlacesOf(u, z).incoming && RecordOf(u, z).taker.status.Accepted?;
    assert CancelFinds(files, v, after, z, k, ready);
    CancelDecides(files, v, after, z, k, ready);
    if ready {
      StoppedIsEnded(files, t, z);
    }
  }

  lemma CancelDecides(files: Offered -> nat, v: System, after: seq<Action>, z: Offered, k: nat, ready: bool)
    requires Traced(files, v) && !After(files, v, after).broken && CancelFinds(files, v, after, z, k, ready)
    ensures var t := RecordOf(After(files, v, after), z).taker; if ready then Stopped(t) else !t.requested ==> !Stopped(t)
  {
    hide After, Next, More, Stops, Arrives, Happens, StopHolds, InOrder, OfferMore, Stopped;
    var u, rest := After(files, v, after[..k]), after[k + 1..];
    var w := Next(files, u, after[k]);
    AfterSplits(files, v, after, k);
    RunIsTraced(files, v, after[..k]);
    NextIsTraced(files, u, after[k]);
    NotBrokenBefore(files, u, after[k], rest);
    MoreOf(files, u, z);
    StopsOf(u, z);
    var event := SomethingHappens(files, u, after[k], z);
    CancelArrives(files, u, w, after[k], z, event);
    if ready {
      StoppedStays(files, w, rest, z);
    } else if !RecordOf(After(files, w, rest), z).taker.requested {
      NextLasts(files, u, after[k], z);
      RunLasts(files, w, rest, z);
      DryRunsStop(files, w, rest, z);
    }
  }

  lemma NotBrokenBefore(files: Offered -> nat, u: System, a: Action, rest: seq<Action>)
    requires !After(files, Next(files, u, a), rest).broken
    ensures !u.broken && !Next(files, u, a).broken
  {
    hide Next;
    if Next(files, u, a).broken {
      BrokenStays(files, Next(files, u, a), rest);
    }
    if u.broken {
      BrokenNext(files, u, a);
    }
  }

  lemma BrokenNext(files: Offered -> nat, u: System, a: Action)
    requires u.broken
    ensures Next(files, u, a) == u
  {
  }

  /** And once it has made its request the command does nothing more, nor does the owner's
      once the flag is up. */
  lemma LaterCommandsAreSilent(files: Offered -> nat, s: System, z: Offered, atCoordinator: bool)
    requires Picked(s, atCoordinator) == Some(z)
    requires if atCoordinator == z.Own? then RecordOf(s, z).owner.canceled else RecordOf(s, z).taker.requested
    ensures Next(files, s, CancelCommand(atCoordinator)) == s
  {
    hide Picked;
    if !s.broken {
      assert s.offers[z := RecordOf(s, z)] == s.offers;
      assert s.toPeer + [] == s.toPeer && s.toCoordinator + [] == s.toCoordinator;
    }
  }
}
