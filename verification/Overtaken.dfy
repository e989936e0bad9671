/** Which run blocks which offer: the offer in front was sent over it and the accepting peer
    has taken it in. */
module Overtaken {
  import opened Names
  import opened Coordinator
  import opened OneOffer
  import opened Steps
  import opened Standstill
  import opened Deadlock
  import opened Overtaking
  import ConnectingPeer

  // ---- orders of made offers ----

  lemma MadeOnce(made: seq<Offered>, a: Offered, b: Offered)
    requires Precedes(made, a, b) && !Precedes(made, a, a) && !Precedes(made, b, b)
    ensures !Precedes(made, b, a)
  {
  }

  lemma OneOrTheOther(made: seq<Offered>, a: Offered, b: Offered)
    requires a in made && b in made && a != b
    ensures Precedes(made, a, b) || Precedes(made, b, a)
  {
    var i :| 0 <= i < |made| && made[i] == a;
    var j :| 0 <= j < |made| && made[j] == b;
    assert i < j || j < i;
  }

  /** Overtaking or not, the queue itself is in the order of making. */
  ghost predicate QueueIsSorted(run: Run) {
    var queue := run.slots.outgoingQueue;
    forall i, j | 0 <= i < j < |queue| :: Precedes(run.admitted, Own(queue[i]), Own(queue[j]))
  }

  lemma QueueStaysSorted(run: Run, op: Option<Op>)
    requires LinedUp(run) && QueueIsSorted(run)
    ensures QueueIsSorted(RunAfter(run, op))
  {
    hide TakeCoordinatorOffer, Precedes;
    AdmissionsAfter(run, op);
    var before, after := run.admitted, RunAfter(run, op).admitted;
    if after != before {
      forall a, b | Precedes(before, a, b) ensures Precedes(after, a, b) {
        PrecedesPush(before, after[|before|], a, b);
      }
      forall a | a in before ensures Precedes(after, a, after[|before|]) {
        PrecedesPush(before, after[|before|], a, after[|before|]);
      }
    }
  }

  /** How an offer comes to stand in the slot while one that was made earlier waits. */
  lemma SlotIsJumped(run: Run, op: Option<Op>, b: nat, d: nat)
    requires LinedUp(run) && QueueIsSorted(run) && (forall h: nat :: !Precedes(run.admitted, Own(h), Own(h)))
    requires op.Some? && op.value.SubmitOp? ==> Own(op.value.x) !in run.admitted
    requires var next := RunAfter(run, op);
             next.slots.outgoing == Some(d) && b in next.slots.outgoingQueue && Precedes(next.admitted, Own(b), Own(d))
    ensures b in run.slots.outgoingQueue
    ensures (run.slots.outgoing == Some(d) && Precedes(run.admitted, Own(b), Own(d))) || (op == Some(SubmitOp(d)) && run.slots.outgoing == None)
  {
    hide TakeCoordinatorOffer, Precedes;
    AdmissionsAfter(run, op);
    var queue, before, after := run.slots.outgoingQueue, run.admitted, RunAfter(run, op).admitted;
    if after != before {
      PrecedesPush(before, after[|before|], Own(b), Own(d));
    }
    if op.Some? && op.value.SubmitOp? {
      NotAmong(before, Own(op.value.x), Own(d));
    }
    if run.slots.outgoing != Some(d) && queue != [] && queue[0] == d && b in queue[1..] {
      var j :| 0 < j < |queue| && queue[j] == b;
      assert Precedes(before, Own(queue[0]), Own(queue[j]));
      MadeOnce(before, Own(d), Own(b));
    }
  }

  // ---- runs ----

  ghost predicate InMaking(files: Offered -> nat, s: System) {
    && Regular(files, s)
    && (!s.broken ==> Ordered(s) && QueueIsSorted(s.peer) && PendingIsQueued(s) && Serial(s.coordinator))
  }

  lemma NextKeepsSorted(files: Offered -> nat, s: System, a: Action)
    requires !s.broken && !Next(files, s, a).broken && LinedUp(s.peer) && QueueIsSorted(s.peer) && Serial(s.coordinator)
    ensures QueueIsSorted(Next(files, s, a).peer) && Serial(Next(files, s, a).coordinator)
  {
    hide Next, StepOf, Taking, Lasts, OwnerStep, ReceiverStep, RunAfter, QueueIsSorted, Serial;
    NextTakes(files, s, a);
    NoStepIsTaken(s);
    if StepOf(files, s, a).Some? {
      var step := StepOf(files, s, a).value;
      StepIsProper(files, s, a);
      AfterStep(s, step);
      RunStaysSerial(s.coordinator, CoordinatorOp(step));
      QueueStaysSorted(s.peer, PeerOp(step));
    }
  }

  lemma NextStaysInMaking(files: Offered -> nat, s: System, a: Action)
    requires InMaking(files, s)
    ensures InMaking(files, Next(files, s, a))
  {
    hide More, LinedUp, Ordered, QueueIsSorted, PendingIsQueued, Serial, Tidy, Next;
    NextStaysRegular(files, s, a);
    BrokenStaysBroken(files, s, a);
    if !Next(files, s, a).broken {
      NextKeepsOrder(files, s, a);
      NextKeepsPending(files, s, a);
      NextKeepsSorted(files, s, a);
    }
  }

  lemma {:induction false} RunStaysInMaking(files: Offered -> nat, s: System, actions: seq<Action>)
    requires InMaking(files, s)
    ensures InMaking(files, After(files, s, actions))
    decreases |actions|
  {
    hide InMaking, Next;
    if actions != [] {
      NextStaysInMaking(files, s, actions[0]);
      RunStaysInMaking(files, Next(files, s, actions[0]), actions[1..]);
    }
  }

  lemma StartIsInMaking(files: Offered -> nat)
    ensures InMaking(files, Start())
  {
    hide Regular;
    StartIsRegular(files);
  }

  /** Somewhere in the run `d` was sent into the free slot while `b` waited for it. */
  ghost predicate SentOver(files: Offered -> nat, actions: seq<Action>, b: nat, d: nat) {
    exists k: nat :: SentOverAt(files, actions, b, d, k)
  }

  ghost predicate SentOverAt(files: Offered -> nat, actions: seq<Action>, b: nat, d: nat, k: nat) {
    && k < |actions| && actions[k] == NewOffer(Peers(d))
    && Jumps(After(files, Start(), actions[..k]), actions[k])
    && b in After(files, Start(), actions[..k]).peer.slots.outgoingQueue
  }

  ghost predicate StandsBefore(s: System, b: nat, d: nat) {
    s.peer.slots.outgoing == Some(d) && b in s.peer.slots.outgoingQueue && Precedes(s.peer.admitted, Own(b), Own(d))
  }

  lemma StepJumps(files: Offered -> nat, s: System, a: Action, b: nat, d: nat)
    requires InMaking(files, s) && !s.broken && !Next(files, s, a).broken && StandsBefore(Next(files, s, a), b, d)
    ensures StandsBefore(s, b, d) || (a == NewOffer(Peers(d)) && Jumps(s, a) && b in s.peer.slots.outgoingQueue)
  {
    hide Next, StepOf, Taking, Lasts, OwnerStep, ReceiverStep, RunAfter, Serial, More, Tidy, Precedes, Ahead, LinedUp, QueueIsSorted;
    NextTakes(files, s, a);
    NoStepIsTaken(s);
    if StepOf(files, s, a).Some? {
      var step := StepOf(files, s, a).value;
      StepIsProper(files, s, a);
      AfterStep(s, step);
      PeerConnects(s);
      if PeerOp(step).Some? && PeerOp(step).value.SubmitOp? {
        SubmitsAreNewOffers(files, s, a, PeerOp(step).value);
      }
      SlotIsJumped(s.peer, PeerOp(step), b, d);
    }
  }

  lemma PeerConnects(s: System)
    requires LinedUp(s.peer)
    ensures s.peer.slots.role == Outbound
  {
  }

  lemma {:induction false} WaitingWasJumped(files: Offered -> nat, actions: seq<Action>, b: nat, d: nat)
    requires !After(files, Start(), actions).broken && StandsBefore(After(files, Start(), actions), b, d)
    ensures SentOver(files, actions, b, d)
    decreases |actions|
  {
    hide Next, After, Jumps, InMaking, Precedes;
    StartIsWithoutQueue(files, actions, b, d);
    var n := |actions| - 1;
    var front, s := actions[..n], After(files, Start(), actions[..n]);
    AfterSplits(files, Start(), actions, n);
    AfterNothing(files, Next(files, s, actions[n]));
    assert actions[n + 1..] == [];
    StartIsInMaking(files);
    RunStaysInMaking(files, Start(), front);
    BrokenStaysBroken(files, s, actions[n]);
    StepJumps(files, s, actions[n], b, d);
    if StandsBefore(s, b, d) {
      WaitingWasJumped(files, front, b, d);
      var k: nat :| SentOverAt(files, front, b, d, k);
      assert front[..k] == actions[..k];
      assert SentOverAt(files, actions, b, d, k);
    } else {
      assert SentOverAt(files, actions, b, d, n);
    }
  }

  lemma AfterNothing(files: Offered -> nat, s: System)
    ensures After(files, s, []) == s
  {
  }

  lemma StartIsWithoutQueue(files: Offered -> nat, actions: seq<Action>, b: nat, d: nat)
    requires StandsBefore(After(files, Start(), actions), b, d)
    ensures actions != []
  {
  }

  // ---- who has been sent over stays behind ----

  /** `d` is in the slot with `b` behind it, or is gone. */
  ghost predicate BehindOrGone(s: System, b: nat, d: nat) {
    || (s.peer.slots.outgoing == Some(d) && b in s.peer.slots.outgoingQueue)
    || RecordOf(s, Peers(d)).owner.phase.Gone?
  }

  lemma SlotIsKept(run: Run, op: Option<Op>, b: nat, d: nat)
    requires run.slots.role == Outbound && run.slots.outgoing == Some(d) && b in run.slots.outgoingQueue && op != Some(ClearOp(Own(d)))
    ensures RunAfter(run, op).slots.outgoing == Some(d) && b in RunAfter(run, op).slots.outgoingQueue
  {
  }

  lemma SlotIsTaken(run: Run, b: nat, d: nat)
    requires run.slots.role == Outbound && ConnectingPeer.Overtakes(run, SubmitOp(d)) && b in run.slots.outgoingQueue
    ensures var slots := RunAfter(run, Some(SubmitOp(d))).slots; slots.outgoing == Some(d) && b in slots.outgoingQueue
  {
  }

  lemma StaysBehindOrGone(files: Offered -> nat, s: System, a: Action, b: nat, d: nat)
    requires Admitted(s) && !s.broken && !Next(files, s, a).broken && BehindOrGone(s, b, d)
    ensures BehindOrGone(Next(files, s, a), b, d)
  {
    hide Next, StepOf, Taking, Lasts, RunAfter, ReceiverStep;
    NextTakes(files, s, a);
    NoStepIsTaken(s);
    if StepOf(files, s, a).Some? {
      var step := StepOf(files, s, a).value;
      StepIsProper(files, s, a);
      AfterStep(s, step);
      if !RecordOf(s, Peers(d)).owner.phase.Gone? && PeerOp(step) != Some(ClearOp(Own(d))) {
        SlotIsKept(s.peer, PeerOp(step), b, d);
      } else if PeerOp(step) == Some(ClearOp(Own(d))) {
        OnlyItsOwnerClears(s, step, d);
      }
    }
  }

  lemma OnlyItsOwnerClears(s: System, step: Step, d: nat)
    requires ProperStep(s, step) && !step.effects.broken && PeerOp(step) == Some(ClearOp(Own(d)))
    ensures step.offer == Peers(d) && step.effects.record.owner.phase.Gone?
  {
  }

  lemma {:induction false} RunStaysBehindOrGone(files: Offered -> nat, s: System, actions: seq<Action>, b: nat, d: nat)
    requires Admitted(s) && !After(files, s, actions).broken && BehindOrGone(s, b, d)
    ensures BehindOrGone(After(files, s, actions), b, d)
    decreases |actions|
  {
    hide Next, Admitted, BehindOrGone;
    if actions != [] {
      BrokenBefore(files, s, actions);
      StaysBehindOrGone(files, s, actions[0], b, d);
      NextKeepsAdmitted(files, s, actions[0]);
      RunStaysBehindOrGone(files, Next(files, s, actions[0]), actions[1..], b, d);
    }
  }

  lemma BrokenBefore(files: Offered -> nat, s: System, actions: seq<Action>)
    requires actions != [] && !After(files, s, actions).broken
    ensures !s.broken && !Next(files, s, actions[0]).broken
  {
    hide Next;
    if s.broken {
      BrokenStays(files, s, actions);
    }
    if Next(files, s, actions[0]).broken {
      BrokenStays(files, Next(files, s, actions[0]), actions[1..]);
    }
  }

  lemma JumpedIsBehind(files: Offered -> nat, s: System, b: nat, d: nat)
    requires Admitted(s) && Jumps(s, NewOffer(Peers(d))) && b in s.peer.slots.outgoingQueue && !Next(files, s, NewOffer(Peers(d))).broken
    ensures BehindOrGone(Next(files, s, NewOffer(Peers(d))), b, d)
  {
    hide FilesBelow, RunAfter;
    SlotIsTaken(s.peer, b, d);
  }

  lemma SentOverIsBehind(files: Offered -> nat, actions: seq<Action>, b: nat, d: nat)
    requires var s := After(files, Start(), actions);
             !s.broken && Tidy(s) && SentOver(files, actions, b, d) && s.peer.slots.outgoing == Some(d)
    ensures b in After(files, Start(), actions).peer.slots.outgoingQueue
  {
    hide Next, After, Jumps, Admitted;
    var k: nat :| SentOverAt(files, actions, b, d, k);
    var u := After(files, Start(), actions[..k]);
    AfterSplits(files, Start(), actions, k);
    StartIsAdmitted();
    RunKeepsAdmitted(files, Start(), actions[..k]);
    NextKeepsAdmitted(files, u, actions[k]);
    UnbrokenNext(files, u, actions[k], actions[k + 1..]);
    JumpedIsBehind(files, u, b, d);
    RunStaysBehindOrGone(files, Next(files, u, actions[k]), actions[k + 1..], b, d);
    TidyKnows(After(files, Start(), actions), d);
  }

  lemma UnbrokenNext(files: Offered -> nat, u: System, a: Action, rest: seq<Action>)
    requires !After(files, Next(files, u, a), rest).broken
    ensures !Next(files, u, a).broken
  {
    hide Next;
    if Next(files, u, a).broken {
      BrokenStays(files, Next(files, u, a), rest);
    }
  }

  lemma StartIsAdmitted()
    ensures Admitted(Start())
  {
  }

  // ---- the main result ----

  /** The offer in the connecting peer's slot was sent over this one, and the accepting peer
      has admitted it. */
  ghost predicate WasSentOver(files: Offered -> nat, actions: seq<Action>, z: Offered) {
    var s := After(files, Start(), actions);
    && z.Peers? && s.peer.slots.outgoing.Some?
    && SentOver(files, actions, z.handle, s.peer.slots.outgoing.value)
    && Peers(s.peer.slots.outgoing.value) in s.coordinator.admitted
  }

  lemma BlockedStandsBehind(files: Offered -> nat, s: System, z: Offered)
    requires InMaking(files, s) && !s.broken && Blocked(s, z)
    ensures StandsBefore(s, z.handle, s.peer.slots.outgoing.value) && Peers(s.peer.slots.outgoing.value) in s.coordinator.admitted
  {
    hide More, Ordered, Precedes, QueueIsSorted;
    var b, d := z.handle, s.peer.slots.outgoing.value;
    assert b in s.peer.slots.outgoingQueue;
    assert Queued(s.coordinator.slots, d);
    assert Peers(d) in s.coordinator.started + s.coordinator.slots.coordinatorQueue;
    PrecedesInQueue(s.coordinator.started, s.coordinator.slots.coordinatorQueue, Peers(d));
    OneOrTheOther(s.peer.admitted, Own(b), Own(d));
    if Precedes(s.peer.admitted, Own(d), Own(b)) {
      StaysAhead(s, d, b);
    }
  }

  /** In every run that has come to rest an accepted offer that was not flagged early is
      blocked exactly when the offer in its owner's slot was sent over it and has been
      admitted by the accepting peer. */
  lemma BlockedIffSentOver(files: Offered -> nat, actions: seq<Action>, z: Offered)
    requires var s := After(files, Start(), actions);
             AtRest(files, s) && RecordOf(s, z).taker.accepted && !FlaggedEarly(s, z)
    ensures var s := After(files, Start(), actions);
            && (Blocked(s, z) <==> WasSentOver(files, actions, z))
            && (Ended(RecordOf(s, z)) <==> !WasSentOver(files, actions, z))
  {
    hide After, AtRest, More, Ordered, QueueIsSorted, PendingIsQueued, Serial, Blocked, SentOver, FlaggedEarly, Admitted;
    var s := After(files, Start(), actions);
    StartIsInMaking(files);
    RunStaysInMaking(files, Start(), actions);
    RestIsUnbroken(files, s);
    RestedOfferEndsOrBlocks(files, s, z);
    if Blocked(s, z) {
      BlockedHasFront(s, z);
      BlockedStandsBehind(files, s, z);
      WaitingWasJumped(files, actions, z.handle, s.peer.slots.outgoing.value);
    } else if WasSentOver(files, actions, z) {
      SentOverIsBehind(files, actions, z.handle, s.peer.slots.outgoing.value);
      WaitersHaveNotEnded(s, z.handle);
    }
  }

  lemma BlockedHasFront(s: System, z: Offered)
    requires Blocked(s, z)
    ensures z.Peers? && s.peer.slots.outgoing.Some?
  {
  }

  lemma WaitersHaveNotEnded(s: System, b: nat)
    requires Tidy(s) && b in s.peer.slots.outgoingQueue
    ensures !Ended(RecordOf(s, Peers(b)))
  {
  }
}
