/** The steps of runs of both peers, whichever action takes them: what each does to one
    offer and to the slots, and what stays true of an offer once it is. */
module Steps {
  import opened Names
  import opened Coordinator
  import opened OneOffer

  // ---- the steps of a run, whichever action takes them ----

  /** `from` is the state before the step without the frame it takes off a wire. */
  datatype Step = Step(from: System, offer: Offered, effects: Effects)

  function StepOf(files: Offered -> nat, s: System, a: Action): Option<Step> {
    match a
    case NewOffer(z) =>
      if RecordOf(s, z).owner.phase != Absent || !Takes(OwnerSlots(s, z)) then None
      else Some(Step(s, z, AtOwner(Submitted(RecordOf(s, z), files(z)), SubmitOp(z.handle))))
    case OfferMove(z, move) =>
      var r := RecordOf(s, z);
      if !CanMove(files(z), r, PlacesOf(s, z), move) then None else Some(Step(s, z, Moved(z, r, move)))
    case CancelCommand(atCoordinator) =>
      (match Picked(s, atCoordinator)
       case None => None
       case Some(z) => Some(Step(s, z, Just(CancelPicked(RecordOf(s, z), atCoordinator == z.Own?)))))
    case DeliverToPeer =>
      if s.toPeer == [] || !CanDeliver(s, s.toPeer[0], false) then None
      else Some(Step(s.(toPeer := s.toPeer[1..]), s.toPeer[0].offer, Arrived(s, s.toPeer[0], false)))
    case DeliverToCoordinator =>
      if s.toCoordinator == [] || !CanDeliver(s, s.toCoordinator[0], true) then None
      else Some(Step(s.(toCoordinator := s.toCoordinator[1..]), s.toCoordinator[0].offer, Arrived(s, s.toCoordinator[0], true)))
  }

  function Taking(s: System, step: Option<Step>): System {
    if step == None then s else OneOffer.Apply(step.value.from, step.value.offer, step.value.effects)
  }

  lemma NoStepIsTaken(s: System)
    ensures Taking(s, None) == s
  {
  }

  lemma NextTakes(files: Offered -> nat, s: System, a: Action)
    ensures Next(files, s, a) == if s.broken then s else Taking(s, StepOf(files, s, a))
  {
    hide OneOffer.Apply, Moved, CanMove, Picked, CanDeliver, Heard, Heeded, FilesBelow, Takes;
  }

  /** What a step does at the owner: to the offer there and to its slots. */
  ghost predicate OwnerStep(z: Offered, o: Owned, o': Owned, p: Places, takes: bool, op: Option<Op>) {
    match op
    case None => o'.phase == o.phase || (o.phase.Created? && o'.phase.Waiting?) || (o.phase.Running? && o'.phase.Finishing?)
    case Some(SubmitOp(x)) => x == z.handle && o.phase.Absent? && o'.phase.Created? && takes
    case Some(TransferOp(w)) => w == Own(z.handle) && o.phase.Waiting? && o'.phase.Running? && p.outgoing
    case Some(ClearOp(w)) => w == Own(z.handle) && o'.phase.Gone? && ((o.phase.Waiting? && p.outgoing) || o.phase.Running? || o.phase.Finishing?)
    case Some(_) => false
  }

  /** Another offer of the peer can be received. */
  predicate HasRoom(slots: Slots) {
    if slots.role == Inbound then |slots.coordinatorQueue| < MAX_QUEUED_OFFERS else slots.incoming == None
  }

  /** And at the receiver; `told` says whether the offer's manifest is on its way. */
  ghost predicate ReceiverStep(z: Offered, t: Held, t': Held, p: Places, told: bool, room: bool, op: Option<Op>) {
    match op
    case None => t'.status == t.status || (t.status.Pending? && p.incoming && t'.status.Closing?) || (t.status.Accepted? && t'.status.Closing?)
                 || (t'.status.Closed? && t'.refused && told)
    case Some(ReceiveOp(y)) => y == z.handle && t'.status.Pending? && told && room
    case Some(TransferOp(w)) => w == Peers(z.handle) && t.status.Pending? && t'.status.Accepted? && p.incoming
    case Some(ClearOp(w)) => w == Peers(z.handle) && t.status.Closing? && t'.status.Closed?
    case Some(_) => false
  }

  /** What stays true of an offer. */
  ghost predicate Lasts(r: Record, r': Record) {
    && (r.taker.accepted ==> r'.taker.accepted)
    && (r.taker.requested ==> r'.taker.requested)
    && (r.owner.armed ==> r'.owner.armed)
    && (r.owner.canceled ==> r'.owner.canceled)
  }

  ghost predicate ProperStep(s: System, step: Step) {
    var z, e := step.offer, step.effects;
    var r, p := RecordOf(s, z), PlacesOf(s, z);
    && step.from == s.(toPeer := step.from.toPeer, toCoordinator := step.from.toCoordinator)
    && Lasts(r, e.record)
    && (!e.broken ==> OwnerStep(z, r.owner, e.record.owner, p, Takes(OwnerSlots(s, z)), e.owner))
    && (!e.broken ==> ReceiverStep(z, r.taker, e.record.taker, p, Manifest in Forth(s, z), HasRoom(ReceiverSlots(s, z)), e.receiver))
    && (e.owner.Some? ==> e.record.taker == r.taker && e.receiver == None)
  }

  lemma MoveIsProper(files: Offered -> nat, s: System, z: Offered, m: Move)
    requires CanMove(files(z), RecordOf(s, z), PlacesOf(s, z), m)
    ensures ProperStep(s, Step(s, z, Moved(z, RecordOf(s, z), m)))
  {
    hide Takes;
  }

  lemma ArrivalIsProper(s: System, t: System, toCoordinator: bool)
    requires Taken(s, t, toCoordinator)
    ensures ProperStep(s, Step(t, Head(s, toCoordinator).offer, Arrived(s, Head(s, toCoordinator), toCoordinator)))
  {
    hide Takes, Of;
    TakenFrames(s, t, toCoordinator);
    var sent := Head(s, toCoordinator);
    if !GoesToOwner(toCoordinator, sent.offer) {
      assert Forth(s, sent.offer)[0] == sent.frame;
    }
  }

  lemma NewOfferIsProper(files: Offered -> nat, s: System, z: Offered)
    requires RecordOf(s, z).owner.phase.Absent? && Takes(OwnerSlots(s, z))
    ensures ProperStep(s, Step(s, z, AtOwner(Submitted(RecordOf(s, z), files(z)), SubmitOp(z.handle))))
  {
    hide FilesBelow;
  }

  lemma CancelIsProper(s: System, z: Offered, atCoordinator: bool)
    ensures ProperStep(s, Step(s, z, Just(CancelPicked(RecordOf(s, z), atCoordinator == z.Own?))))
  {
    hide Takes;
  }

  lemma StepIsProper(files: Offered -> nat, s: System, a: Action)
    ensures StepOf(files, s, a).Some? ==> ProperStep(s, StepOf(files, s, a).value)
  {
    hide ProperStep, Moved, Arrived, CanMove, CanDeliver, FilesBelow, Picked;
    match a
    case NewOffer(z) =>
      if StepOf(files, s, a).Some? {
        NewOfferIsProper(files, s, z);
      }
    case OfferMove(z, m) =>
      if StepOf(files, s, a).Some? {
        MoveIsProper(files, s, z, m);
      }
    case CancelCommand(atCoordinator) =>
      if Picked(s, atCoordinator).Some? {
        CancelIsProper(s, Picked(s, atCoordinator).value, atCoordinator);
      }
    case DeliverToPeer =>
      if s.toPeer != [] {
        ArrivalIsProper(s, s.(toPeer := s.toPeer[1..]), false);
      }
    case DeliverToCoordinator =>
      if s.toCoordinator != [] {
        ArrivalIsProper(s, s.(toCoordinator := s.toCoordinator[1..]), true);
      }
  }

  function PeerOp(step: Step): Option<Op> { if step.offer.Own? then step.effects.receiver else step.effects.owner }

  function CoordinatorOp(step: Step): Option<Op> { if step.offer.Own? then step.effects.owner else step.effects.receiver }

  /** What a step leaves: one record, two slots. */
  lemma AfterStep(s: System, step: Step)
    requires ProperStep(s, step)
    ensures var s' := Taking(s, Some(step));
            if step.effects.broken then s' == step.from.(broken := true) && forall w :: RecordOf(s', w) == RecordOf(s, w)
            else
              && (forall w :: RecordOf(s', w) == if w == step.offer then step.effects.record else RecordOf(s, w))
              && s'.peer == RunAfter(s.peer, PeerOp(step)) && s'.coordinator == RunAfter(s.coordinator, CoordinatorOp(step))
              && s'.broken == s.broken
  {
    hide RunAfter, Lasts, OwnerStep, ReceiverStep;
  }

  // ---- manifests of the connecting peer ----

  ghost predicate LinedUp(run: Run) {
    && run.slots.role == Outbound
    && (run.slots.outgoing.Some? ==> Own(run.slots.outgoing.value) in run.admitted)
    && (forall h | h in run.slots.outgoingQueue :: Own(h) in run.admitted)
  }

  /** The connecting peer's offers are those it has admitted. */
  ghost predicate Admitted(s: System) {
    && LinedUp(s.peer)
    && forall h :: !RecordOf(s, Peers(h)).owner.phase.Absent? <==> Own(h) in s.peer.admitted
  }

  lemma StaysLinedUp(run: Run, op: Option<Op>)
    requires LinedUp(run)
    ensures LinedUp(RunAfter(run, op))
    ensures forall h :: Own(h) in RunAfter(run, op).admitted <==> Own(h) in run.admitted || (op == Some(SubmitOp(h)) && Takes(run.slots))
  {
    hide TakeCoordinatorOffer;
  }

  lemma NextKeepsAdmitted(files: Offered -> nat, s: System, a: Action)
    requires Admitted(s)
    ensures Admitted(Next(files, s, a))
  {
    hide Next, StepOf, Taking, Lasts, RunAfter, LinedUp, Takes;
    NextTakes(files, s, a);
    StepIsProper(files, s, a);
    if StepOf(files, s, a).Some? {
      AfterStep(s, StepOf(files, s, a).value);
      StaysLinedUp(s.peer, PeerOp(StepOf(files, s, a).value));
    } else {
      NoStepIsTaken(s);
    }
  }

  lemma {:induction false} RunKeepsAdmitted(files: Offered -> nat, s: System, actions: seq<Action>)
    requires Admitted(s)
    ensures Admitted(After(files, s, actions))
    decreases |actions|
  {
    hide Next, Admitted;
    if actions != [] {
      NextKeepsAdmitted(files, s, actions[0]);
      RunKeepsAdmitted(files, Next(files, s, actions[0]), actions[1..]);
    }
  }

  lemma NextLasts(files: Offered -> nat, s: System, a: Action, z: Offered)
    ensures Lasts(RecordOf(s, z), RecordOf(Next(files, s, a), z))
  {
    hide Next, StepOf, Taking, OwnerStep, ReceiverStep;
    NextTakes(files, s, a);
    StepIsProper(files, s, a);
    if StepOf(files, s, a).Some? {
      AfterStep(s, StepOf(files, s, a).value);
    } else {
      NoStepIsTaken(s);
    }
  }

  lemma {:induction false} RunLasts(files: Offered -> nat, s: System, actions: seq<Action>, z: Offered)
    ensures Lasts(RecordOf(s, z), RecordOf(After(files, s, actions), z))
    decreases |actions|
  {
    hide Next;
    if actions != [] {
      NextLasts(files, s, actions[0], z);
      RunLasts(files, Next(files, s, actions[0]), actions[1..], z);
    }
  }

  /** The first offer whose manifest is still to be sent has its turn. */
  lemma {:induction false} FirstHasTurn(s: System, i: nat) returns (z: Offered)
    requires i < |s.peer.admitted| && s.peer.admitted[i].Own? && RecordOf(s, Peers(s.peer.admitted[i].handle)).owner.phase.Created?
    ensures z.Peers? && RecordOf(s, z).owner.phase.Created? && HasTurn(s, z)
    decreases i
  {
    if j :| 0 <= j < i && s.peer.admitted[j].Own? && RecordOf(s, Peers(s.peer.admitted[j].handle)).owner.phase.Created? {
      z := FirstHasTurn(s, j);
    } else {
      z := Peers(s.peer.admitted[i].handle);
      assert s.peer.admitted[i] == Own(z.handle);
    }
  }

  lemma AfterSplits(files: Offered -> nat, s: System, actions: seq<Action>, k: nat)
    requires k < |actions|
    ensures After(files, s, actions) == After(files, Next(files, After(files, s, actions[..k]), actions[k]), actions[k + 1..])
    decreases k
  {
    hide Next;
    if k == 0 {
      assert actions[..0] == [];
    } else {
      AfterSplits(files, Next(files, s, actions[0]), actions[1..], k - 1);
      assert actions[..k][1..] == actions[1..][..k - 1];
      assert actions[1..][k..] == actions[k + 1..];
    }
  }
}
