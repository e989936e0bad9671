/** How the two peers can block each other for good: an accepted offer waits in its owner's
    queue, and the offer in front of it waits for the other peer's turn to be reviewed. */
module Deadlock {
  import opened Names
  import opened Coordinator
  import opened OneOffer
  import opened Steps
  import opened Standstill

  /** `b` and `d` are offers of the connecting peer. The accepting peer serves `b`, whose
      owner has given its slot to `d`. */
  ghost predicate Deadlocked(s: System, b: nat, d: nat) {
    && b != d
    && RecordOf(s, Peers(b)).owner.phase.Waiting? && RecordOf(s, Peers(b)).taker.status.Accepted?
    && RecordOf(s, Peers(d)).owner.phase.Waiting? && RecordOf(s, Peers(d)).taker.status.Pending?
    && s.peer.slots.outgoing == Some(d) && s.coordinator.slots.incoming == Some(b)
  }

  // ---- a deadlock lasts ----

  /** What the invariants say of an offer, in so far as it matters here. */
  ghost predicate Sane(z: Offered, r: Record, own: Slots, told: bool) {
    && (r.taker.refused ==> !r.taker.accepted)
    && (r.taker.accepted && Over(r.taker.status) ==> r.owner.canceled || r.owner.phase.Finishing? || r.owner.phase.Gone?)
    && (r.owner.canceled && !r.owner.phase.Gone? ==> InSlot(own, Own(z.handle)))
    && (r.owner.phase.Running? ==> r.taker.accepted)
    && (r.owner.phase.Gone? ==> Over(r.taker.status))
    && (r.taker.accepted ==> !Undecided(r.taker.status))
    && (r.taker.status.Accepted? ==> r.taker.accepted)
    && (told ==> r.taker.status.Unseen?)
  }

  lemma OfferIsSane(z: Offered, n: nat, r: Record, own: Slots, forth: seq<Frame>, back: seq<Frame>)
    requires OfferInv(n, r, forth, back) && OfferMore(r, forth, back) && PlacedMore(z, r.owner, own)
    ensures Sane(z, r, own, Manifest in forth)
  {
    hide Edges, InOrder, Answered, Accounted, Followed, NoneFenced, OneDecision, OneEnding, EndingIsLast, RequestsAreTraced, CancelIsTraced, FramesAreTraced;
  }

  lemma MoreIsSane(files: Offered -> nat, s: System, z: Offered)
    requires More(files, s) && !s.broken
    ensures Sane(z, RecordOf(s, z), OwnerSlots(s, z), Manifest in Forth(s, z))
    ensures Placed(z, RecordOf(s, z), OwnerSlots(s, z), ReceiverSlots(s, z)) && OneSlot(s.coordinator.slots) && OneSlot(s.peer.slots)
    ensures s.peer.slots.role == Outbound && s.coordinator.slots.role == Inbound
  {
    hide More, OfferInv, OfferMore, PlacedMore, Sane;
    MoreOf(files, s, z);
    OfferIsSane(z, files(z), RecordOf(s, z), OwnerSlots(s, z), Forth(s, z), Back(s, z));
  }

  /** Neither offer's end is among the operations of a step. */
  lemma SlotsStayDeadlocked(s: System, step: Step, b: nat, d: nat)
    requires Deadlocked(s, b, d) && ProperStep(s, step) && !step.effects.broken
    requires OneSlot(s.coordinator.slots) && OneSlot(s.peer.slots)
    requires PeerOp(step) != Some(ClearOp(Own(d)))
    ensures RunAfter(s.peer, PeerOp(step)).slots.outgoing == Some(d)
    ensures RunAfter(s.coordinator, CoordinatorOp(step)).slots.incoming == Some(b)
  {
    hide SlotsAfter, RunAfter, Lasts;
    assert CoordinatorOp(step) != Some(ClearOp(Peers(b)));
    RunHasSlots(s.peer, PeerOp(step));
    RunHasSlots(s.coordinator, CoordinatorOp(step));
    SlotsKeepOffer(s.peer.slots, PeerOp(step), Own(d));
    SlotsKeepOffer(s.coordinator.slots, CoordinatorOp(step), Peers(b));
  }

  lemma FrontIsNotCleared(s: System, step: Step, b: nat, d: nat)
    requires Deadlocked(s, b, d) && ProperStep(s, step) && !step.effects.broken && step.offer == Peers(d)
    requires forall z :: Sane(z, RecordOf(s, z), OwnerSlots(s, z), Manifest in Forth(s, z))
    requires Sane(Peers(d), step.effects.record, RunAfter(s.peer, PeerOp(step)).slots, false)
    ensures step.effects.record.owner.phase.Waiting? && step.effects.record.taker.status.Pending? && PeerOp(step) == None
  {
    hide RunAfter, Lasts;
    assert Sane(Peers(d), RecordOf(s, Peers(d)), s.peer.slots, Manifest in Forth(s, Peers(d)));
  }

  lemma WaitingIsNotCleared(s: System, step: Step, b: nat, d: nat)
    requires Deadlocked(s, b, d) && ProperStep(s, step) && !step.effects.broken && step.offer == Peers(b)
    requires forall z :: Sane(z, RecordOf(s, z), OwnerSlots(s, z), Manifest in Forth(s, z))
    requires Sane(Peers(b), step.effects.record, RunAfter(s.peer, PeerOp(step)).slots, false)
    requires RunAfter(s.peer, PeerOp(step)).slots.outgoing == Some(d)
    ensures step.effects.record.owner.phase.Waiting? && step.effects.record.taker.status.Accepted?
  {
    hide RunAfter;
    assert Sane(Peers(b), RecordOf(s, Peers(b)), s.peer.slots, Manifest in Forth(s, Peers(b)));
  }

  /** Whatever happens next, both offers stay where they are, or the session ends. */
  lemma NextStaysDeadlocked(files: Offered -> nat, s: System, a: Action, b: nat, d: nat)
    requires More(files, s) && Deadlocked(s, b, d)
    ensures Deadlocked(Next(files, s, a), b, d) || BreaksFrom(s, Next(files, s, a))
  {
    hide More, Next, StepOf, Taking, Lasts, OwnerStep, ReceiverStep, RunAfter, Sane;
    NextTakes(files, s, a);
    NoStepIsTaken(s);
    if !s.broken && StepOf(files, s, a).Some? {
      var step := StepOf(files, s, a).value;
      NextKeepsMore(files, s, a);
      forall z ensures Sane(z, RecordOf(s, z), OwnerSlots(s, z), Manifest in Forth(s, z)) {
        MoreIsSane(files, s, z);
      }
      MoreIsSane(files, s, Peers(b));
      StepIsProper(files, s, a);
      AfterStep(s, step);
      if !step.effects.broken {
        StepStaysDeadlocked(files, s, Next(files, s, a), step, b, d);
      }
    }
  }

  ghost predicate BreaksFrom(s: System, s': System) { s'.broken && s'.offers == s.offers }

  lemma StepStaysDeadlocked(files: Offered -> nat, s: System, s': System, step: Step, b: nat, d: nat)
    requires Deadlocked(s, b, d) && ProperStep(s, step) && !step.effects.broken
    requires OneSlot(s.coordinator.slots) && OneSlot(s.peer.slots)
    requires forall z :: Sane(z, RecordOf(s, z), OwnerSlots(s, z), Manifest in Forth(s, z))
    requires More(files, s') && !s'.broken && s'.peer == RunAfter(s.peer, PeerOp(step)) && s'.coordinator == RunAfter(s.coordinator, CoordinatorOp(step))
    requires forall w :: RecordOf(s', w) == if w == step.offer then step.effects.record else RecordOf(s, w)
    ensures Deadlocked(s', b, d)
  {
    hide More, Lasts, OwnerStep, ReceiverStep, RunAfter, OneSlot;
    var z, e := step.offer, step.effects;
    MoreIsSane(files, s', z);
    if z == Peers(d) {
      SaneWithoutManifest(z, RecordOf(s', z), s'.peer.slots, Manifest in Forth(s', z));
      FrontIsNotCleared(s, step, b, d);
    } else {
      OthersClearTheirOwn(s, step, d);
    }
    SlotsStayDeadlocked(s, step, b, d);
    if z == Peers(b) {
      SaneWithoutManifest(z, RecordOf(s', z), s'.peer.slots, Manifest in Forth(s', z));
      WaitingIsNotCleared(s, step, b, d);
    }
  }

  lemma SaneWithoutManifest(z: Offered, r: Record, own: Slots, told: bool)
    requires Sane(z, r, own, told)
    ensures Sane(z, r, own, false)
  {
  }

  lemma OthersClearTheirOwn(s: System, step: Step, d: nat)
    requires ProperStep(s, step) && !step.effects.broken && step.offer != Peers(d)
    ensures PeerOp(step) != Some(ClearOp(Own(d)))
  {
  }

  /** A deadlock is for good: no action of either user, no frame and no cancel command lets
      the accepted offer end, or begin. */
  lemma {:induction false} DeadlockIsForGood(files: Offered -> nat, s: System, more: seq<Action>, b: nat, d: nat)
    requires More(files, s) && Deadlocked(s, b, d)
    ensures RecordOf(After(files, s, more), Peers(b)).owner.phase.Waiting?
    decreases |more|
  {
    hide More, Next;
    if more != [] {
      NextKeepsMore(files, s, more[0]);
      NextStaysDeadlocked(files, s, more[0], b, d);
      if Deadlocked(Next(files, s, more[0]), b, d) {
        DeadlockIsForGood(files, Next(files, s, more[0]), more[1..], b, d);
      } else {
        BrokenStays(files, Next(files, s, more[0]), more[1..]);
      }
    }
  }

  lemma {:induction false} BrokenStays(files: Offered -> nat, s: System, more: seq<Action>)
    requires s.broken
    ensures After(files, s, more) == s
    decreases |more|
  {
    if more != [] {
      BrokenStays(files, s, more[1..]);
    }
  }

  // ---- the connecting peer's slots and queue ----

  predicate Unsent(phase: Phase) { phase.Created? || phase.Waiting? }

  predicate Live(phase: Phase) { phase.Created? || phase.Waiting? || phase.Running? || phase.Finishing? }

  predicate Reviewed(status: Status) { status.Pending? || status.Accepted? || status.Closing? }

  /** Offers that have not begun are in the slot or wait for it, and nothing else does; the
      other slot holds an offer that is not over; nobody waits for two free slots. */
  ghost predicate Tidy(s: System) {
    var p := s.peer.slots;
    && p.role == Outbound
    && (forall h: nat :: p.outgoing == Some(h) ==> Live(RecordOf(s, Peers(h)).owner.phase))
    && (forall h: nat :: h in p.outgoingQueue ==> Unsent(RecordOf(s, Peers(h)).owner.phase))
    && (forall h: nat :: Unsent(RecordOf(s, Peers(h)).owner.phase) ==> p.outgoing == Some(h) || h in p.outgoingQueue)
    && (forall h: nat :: p.outgoing == Some(h) ==> h !in p.outgoingQueue)
    && (forall i, j | 0 <= i < j < |p.outgoingQueue| :: p.outgoingQueue[i] != p.outgoingQueue[j])
    && (forall y: nat :: p.incoming == Some(y) ==> Reviewed(RecordOf(s, Own(y)).taker.status))
    && (p.outgoing == None && p.incoming == None ==> p.outgoingQueue == [])
  }

  /** What an operation on offer `z` does to the slots of the connecting peer. */
  lemma SubmitStaysTidy(s: System, s': System, h: nat)
    requires Tidy(s) && s'.peer.slots == Submit(s.peer.slots, h).0 && Takes(s.peer.slots)
    requires RecordOf(s, Peers(h)).owner.phase.Absent? && RecordOf(s', Peers(h)).owner.phase.Created?
    requires forall w | w != Peers(h) :: RecordOf(s', w) == RecordOf(s, w)
    ensures Tidy(s')
  {
  }

  lemma ReceiveStaysTidy(s: System, s': System, y: nat)
    requires Tidy(s) && s'.peer.slots == Receive(s.peer.slots, y).0 && s.peer.slots.incoming == None
    requires RecordOf(s', Own(y)).taker.status.Pending?
    requires forall w | w != Own(y) :: RecordOf(s', w) == RecordOf(s, w)
    ensures Tidy(s')
  {
  }

  lemma OwnClearStaysTidy(s: System, s': System, h: nat)
    requires Tidy(s) && s'.peer.slots == Clear(s.peer.slots, Own(h)).0 && s.peer.slots.outgoing == Some(h)
    requires RecordOf(s', Peers(h)).owner.phase.Gone?
    requires forall w | w != Peers(h) :: RecordOf(s', w) == RecordOf(s, w)
    ensures Tidy(s')
  {
  }

  lemma PeersClearStaysTidy(s: System, s': System, y: nat)
    requires Tidy(s) && s'.peer.slots == Clear(s.peer.slots, Peers(y)).0 && s.peer.slots.incoming == Some(y)
    requires RecordOf(s', Own(y)).taker.status.Closed?
    requires forall w | w != Own(y) :: RecordOf(s', w) == RecordOf(s, w)
    ensures Tidy(s')
  {
  }

  lemma NoOpStaysTidy(s: System, s': System, z: Offered)
    requires Tidy(s) && s'.peer.slots == s.peer.slots.(transferring := s'.peer.slots.transferring)
    requires forall w | w != z :: RecordOf(s', w) == RecordOf(s, w)
    requires z.Peers? && s.peer.slots.outgoing == Some(z.handle) ==> Live(RecordOf(s', z).owner.phase)
    requires z.Peers? && s.peer.slots.outgoing != Some(z.handle) ==> (Unsent(RecordOf(s', z).owner.phase) <==> Unsent(RecordOf(s, z).owner.phase))
    requires z.Own? && s.peer.slots.incoming == Some(z.handle) ==> Reviewed(RecordOf(s', z).taker.status)
    ensures Tidy(s')
  {
  }

  lemma OwnerStepStaysTidy(s: System, s': System, step: Step)
    requires Tidy(s) && ProperStep(s, step) && !step.effects.broken && step.offer.Peers?
    requires Placed(step.offer, RecordOf(s, step.offer), s.peer.slots, s.coordinator.slots)
    requires s'.peer.slots == SlotsAfter(s.peer.slots, step.effects.owner) && RecordOf(s', step.offer) == step.effects.record
    requires forall w | w != step.offer :: RecordOf(s', w) == RecordOf(s, w)
    ensures Tidy(s')
  {
    hide Tidy, Lasts, ReceiverStep, Submit, Clear, Takes;
    var h := step.offer.handle;
    TidyKnows(s, h);
    match step.effects.owner
    case None => NoOpStaysTidy(s, s', step.offer);
    case Some(SubmitOp(x)) => SubmitStaysTidy(s, s', h);
    case Some(TransferOp(w)) => NoOpStaysTidy(s, s', step.offer);
    case Some(ClearOp(w)) => OwnClearStaysTidy(s, s', h);
    case Some(_) =>
  }

  lemma TidyKnows(s: System, h: nat)
    requires Tidy(s)
    ensures s.peer.slots.role == Outbound
    ensures s.peer.slots.outgoing == Some(h) ==> Live(RecordOf(s, Peers(h)).owner.phase)
    ensures s.peer.slots.incoming == Some(h) ==> Reviewed(RecordOf(s, Own(h)).taker.status)
  {
  }

  lemma ReceiverStepStaysTidy(s: System, s': System, step: Step)
    requires Tidy(s) && ProperStep(s, step) && !step.effects.broken && step.offer.Own?
    requires Placed(step.offer, RecordOf(s, step.offer), s.coordinator.slots, s.peer.slots)
    requires Manifest in Forth(s, step.offer) ==> RecordOf(s, step.offer).taker.status.Unseen?
    requires s'.peer.slots == SlotsAfter(s.peer.slots, step.effects.receiver) && RecordOf(s', step.offer) == step.effects.record
    requires forall w | w != step.offer :: RecordOf(s', w) == RecordOf(s, w)
    ensures Tidy(s')
  {
    hide Tidy, Lasts, OwnerStep, Receive, Clear, Forth;
    var y := step.offer.handle;
    TidyKnows(s, y);
    match step.effects.receiver
    case None => NoOpStaysTidy(s, s', step.offer);
    case Some(ReceiveOp(_)) => ReceiveStaysTidy(s, s', y);
    case Some(TransferOp(_)) => NoOpStaysTidy(s, s', step.offer);
    case Some(ClearOp(_)) => PeersClearStaysTidy(s, s', y);
    case Some(_) =>
  }

  lemma NextStaysTidy(files: Offered -> nat, s: System, a: Action)
    requires More(files, s) && !s.broken && Tidy(s)
    ensures Tidy(Next(files, s, a)) || Next(files, s, a).broken
  {
    hide More, Tidy, Next, StepOf, Taking, OwnerStep, ReceiverStep, RunAfter, SlotsAfter, Lasts;
    NextTakes(files, s, a);
    NoStepIsTaken(s);
    if StepOf(files, s, a).Some? {
      var step := StepOf(files, s, a).value;
      var s' := Next(files, s, a);
      MoreIsSane(files, s, step.offer);
      StepIsProper(files, s, a);
      AfterStep(s, step);
      if !step.effects.broken {
        NoCancelOps(s, step);
        RunHasSlots(s.peer, PeerOp(step));
        if step.offer.Own? {
          ReceiverStepStaysTidy(s, s', step);
        } else {
          OwnerStepStaysTidy(s, s', step);
        }
      }
    }
  }

  lemma NoCancelOps(s: System, step: Step)
    requires ProperStep(s, step) && !step.effects.broken
    ensures PeerOp(step) != Some(CancelOp) && CoordinatorOp(step) != Some(CancelOp)
  {
  }

  // ---- at rest, who waits behind another is deadlocked ----

  lemma PeersSlotIsTaken(files: Offered -> nat, s: System, b: nat)
    requires More(files, s) && AtRest(files, s) && Tidy(s)
    requires RecordOf(s, Peers(b)).owner.phase.Waiting? && RecordOf(s, Peers(b)).taker.status.Accepted?
    ensures s.peer.slots.outgoing.Some?
  {
    hide More, AtRest, Sane;
    RestIsUnbroken(files, s);
    var incoming := s.peer.slots.incoming;
    if s.peer.slots.outgoing == None && incoming.Some? {
      var z := Own(incoming.value);
      RestIsSettled(files, s, z);
      MoreIsSane(files, s, z);
      MoreIsSane(files, s, Peers(b));
      HeardOffersAreSent(files, s, z);
    }
  }

  /** An offer the receiver has heard of and whose owner is not done has its owner's slot,
      if it is the accepting peer's. */
  lemma HeardOffersAreSent(files: Offered -> nat, s: System, z: Offered)
    requires More(files, s) && !s.broken && z.Own? && !RecordOf(s, z).taker.status.Unseen? && !RecordOf(s, z).owner.phase.Gone?
    ensures s.coordinator.slots.outgoing == Some(z.handle)
  {
    hide More, OfferMore;
    MoreOf(files, s, z);
  }

  lemma WaitingIsDeadlocked(files: Offered -> nat, s: System, z: Offered)
    requires More(files, s) && AtRest(files, s) && Tidy(s) && Admitted(s) && WaitsBehind(s, z)
    ensures z.Peers? && s.peer.slots.outgoing.Some? && Deadlocked(s, z.handle, s.peer.slots.outgoing.value)
  {
    hide More, AtRest, Sane, Admitted;
    RestIsUnbroken(files, s);
    RestIsSettled(files, s, z);
    MoreIsSane(files, s, z);
    AcceptedDecision(files, s, z);
    PeersSlotIsTaken(files, s, z.handle);
    var d := s.peer.slots.outgoing.value;
    TidyKnows(s, d);
    RestIsSettled(files, s, Peers(d));
    ManifestsAreSent(files, s, Peers(d));
    MoreIsSane(files, s, Peers(d));
  }

  lemma AcceptedDecision(files: Offered -> nat, s: System, z: Offered)
    requires More(files, s) && !s.broken && RecordOf(s, z).owner.decision == Some(true)
    ensures RecordOf(s, z).taker.accepted
  {
    hide More, OfferMore, Of;
    MoreOf(files, s, z);
  }

  // ---- the main result ----

  ghost predicate Regular(files: Offered -> nat, s: System) { More(files, s) && Admitted(s) && (!s.broken ==> Tidy(s)) }

  lemma NextStaysRegular(files: Offered -> nat, s: System, a: Action)
    requires Regular(files, s)
    ensures Regular(files, Next(files, s, a))
  {
    hide More, Admitted, Tidy, Next;
    NextKeepsMore(files, s, a);
    NextKeepsAdmitted(files, s, a);
    if s.broken {
      BrokenStays(files, s, [a]);
      assert After(files, s, [a]) == Next(files, s, a);
    } else {
      NextStaysTidy(files, s, a);
    }
  }

  lemma {:induction false} RunIsRegular(files: Offered -> nat, s: System, actions: seq<Action>)
    requires Regular(files, s)
    ensures Regular(files, After(files, s, actions))
    decreases |actions|
  {
    hide Regular, Next;
    if actions != [] {
      NextStaysRegular(files, s, actions[0]);
      RunIsRegular(files, Next(files, s, actions[0]), actions[1..]);
    }
  }

  lemma StartIsRegular(files: Offered -> nat)
    ensures Regular(files, Start())
  {
    hide More;
    StartHasMore(files);
  }

  ghost predicate Blocked(s: System, z: Offered) {
    z.Peers? && s.peer.slots.outgoing.Some? && Deadlocked(s, z.handle, s.peer.slots.outgoing.value)
  }

  lemma RestedOfferEndsOrBlocks(files: Offered -> nat, s: System, z: Offered)
    requires Regular(files, s) && AtRest(files, s) && RecordOf(s, z).taker.accepted
    ensures Ended(RecordOf(s, z)) <==> !FlaggedEarly(s, z) && !Blocked(s, z)
  {
    hide AtRest, More, Tidy, Admitted;
    RestIsUnbroken(files, s);
    RestedOfferEnds(files, s, z);
    if WaitsBehind(s, z) {
      WaitingIsDeadlocked(files, s, z);
    }
  }

  /** In every run that has come to rest an accepted offer that was not flagged early has
      ended exactly when no other offer is in front of it; and if one is, it never ends. */
  lemma AcceptedOffersEndOrBlock(files: Offered -> nat, actions: seq<Action>, z: Offered)
    requires AtRest(files, After(files, Start(), actions)) && RecordOf(After(files, Start(), actions), z).taker.accepted
    ensures var s := After(files, Start(), actions);
            && (Ended(RecordOf(s, z)) <==> !FlaggedEarly(s, z) && !Blocked(s, z))
            && (Blocked(s, z) ==> forall more :: !Ended(RecordOf(After(files, s, more), z)))
  {
    hide After, AtRest, More, Tidy, Admitted;
    StartIsRegular(files);
    RunIsRegular(files, Start(), actions);
    var s := After(files, Start(), actions);
    RestedOfferEndsOrBlocks(files, s, z);
    if Blocked(s, z) {
      forall more ensures !Ended(RecordOf(After(files, s, more), z)) {
        DeadlockIsForGood(files, s, more, z.handle, s.peer.slots.outgoing.value);
      }
    }
  }
}
