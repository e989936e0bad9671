/** A way into a deadlock: four offers and twenty-one actions, each of which the users and
    the protocol allow. */
module Standoff {
  import opened Names
  import opened Coordinator
  import opened OneOffer
  import opened Standstill
  import opened Deadlock

  const A := Peers(1)
  const B := Peers(2)
  const D := Peers(3)
  const O := Own(4)

  const LAST := 21

  /** The connecting peer's `A` is refused while `B` waits behind it and the accepting
      peer's `O` is under review; `D` takes the slot, and `B` is served before it. */
  function Script(step: nat): Action
    requires step < LAST
  {
    match step
    case 0 => NewOffer(A)
    case 1 => OfferMove(A, SendManifest)
    case 2 => DeliverToCoordinator
    case 3 => NewOffer(O)
    case 4 => NewOffer(B)
    case 5 => OfferMove(B, SendManifest)
    case 6 => DeliverToCoordinator
    case 7 => OfferMove(A, Reject)
    case 8 => OfferMove(A, Close)
    case 9 => OfferMove(O, SendManifest)
    case 10 => DeliverToPeer
    case 11 => DeliverToPeer
    case 12 => OfferMove(A, TakeDecision)
    case 13 => NewOffer(D)
    case 14 => OfferMove(D, SendManifest)
    case 15 => DeliverToCoordinator
    case 16 => OfferMove(O, Reject)
    case 17 => OfferMove(O, Close)
    case 18 => DeliverToCoordinator
    case 19 => OfferMove(O, TakeDecision)
    case _ => OfferMove(B, Accept)
  }

  // ---- what each scene looks like ----

  function Actor(n: nat, phase: Phase, status: Status): Record {
    Record(Submitted(FRESH, n).owner.(phase := phase), FRESH.taker.(status := status))
  }

  function Told(r: Record): Record { Record(r.owner.(decision := Some(false)), r.taker) }

  function SceneA(n: nat, step: nat): Record {
    if step == 0 then FRESH
    else if step == 1 then Actor(n, Created, Unseen)
    else if step == 2 then Actor(n, Waiting, Unseen)
    else if step <= 7 then Actor(n, Waiting, Pending)
    else if step == 8 then Actor(n, Waiting, Closing(false))
    else if step <= 10 then Actor(n, Waiting, Closed(false))
    else if step <= 12 then Told(Actor(n, Waiting, Closed(false)))
    else Actor(n, Gone(false), Closed(false))
  }

  function SceneB(n: nat, step: nat): Record {
    if step <= 4 then FRESH
    else if step == 5 then Actor(n, Created, Unseen)
    else if step == 6 then Actor(n, Waiting, Unseen)
    else if step <= 20 then Actor(n, Waiting, Pending)
    else Record(Actor(n, Waiting, Accepted).owner, FRESH.taker.(status := Accepted, accepted := true, decisionOwed := true))
  }

  function SceneD(n: nat, step: nat): Record {
    if step <= 13 then FRESH
    else if step == 14 then Actor(n, Created, Unseen)
    else if step == 15 then Actor(n, Waiting, Unseen)
    else Actor(n, Waiting, Pending)
  }

  function SceneO(n: nat, step: nat): Record {
    if step <= 3 then FRESH
    else if step <= 9 then Actor(n, Created, Unseen)
    else if step <= 11 then Actor(n, Waiting, Unseen)
    else if step <= 16 then Actor(n, Waiting, Pending)
    else if step == 17 then Actor(n, Waiting, Closing(false))
    else if step == 18 then Actor(n, Waiting, Closed(false))
    else if step == 19 then Told(Actor(n, Waiting, Closed(false)))
    else Actor(n, Gone(false), Closed(false))
  }

  function PeerSlots(step: nat): Slots {
    NoOffers(Outbound).(
      outgoing := if step == 0 || step == 13 then None else Some(if step <= 12 then 1 else 3),
      outgoingQueue := if step <= 4 then [] else [2],
      incoming := if 12 <= step <= 17 then Some(4) else None)
  }

  function PeerAdmitted(step: nat): seq<Offered> {
    if step == 0 then [] else if step <= 4 then [Own(1)] else if step <= 11 then [Own(1), Own(2)]
    else if step <= 13 then [Own(1), Own(2), Peers(4)] else [Own(1), Own(2), Peers(4), Own(3)]
  }

  function CoordinatorSlots(step: nat): Slots {
    NoOffers(Inbound).(
      incoming := if 3 <= step <= 8 then Some(1) else if step >= 20 then Some(2) else None,
      outgoing := if 9 <= step <= 19 then Some(4) else None,
      coordinatorActive := step >= 3,
      coordinatorQueue := if step <= 3 then [] else if step <= 6 then [O] else if step <= 8 then [O, B]
                          else if step <= 15 then [B] else if step <= 19 then [B, D] else [D],
      transferring := if step == LAST then Some(B) else None)
  }

  function ToPeer(step: nat): seq<Sent> {
    if step == 8 || step == 9 then [Sent(A, Decision(false))]
    else if step == 10 then [Sent(A, Decision(false)), Sent(O, Manifest)]
    else if step == 11 then [Sent(O, Manifest)]
    else []
  }

  function ToCoordinator(step: nat): seq<Sent> {
    if step == 2 then [Sent(A, Manifest)] else if step == 6 then [Sent(B, Manifest)] else if step == 15 then [Sent(D, Manifest)]
    else if step == 17 || step == 18 then [Sent(O, Decision(false))]
    else []
  }

  ghost predicate Scene(files: Offered -> nat, s: System, step: nat) {
    && !s.broken
    && RecordOf(s, A) == SceneA(files(A), step) && RecordOf(s, B) == SceneB(files(B), step)
    && RecordOf(s, D) == SceneD(files(D), step) && RecordOf(s, O) == SceneO(files(O), step)
    && s.peer.slots == PeerSlots(step) && s.peer.admitted == PeerAdmitted(step)
    && s.coordinator.slots == CoordinatorSlots(step)
    && s.toPeer == ToPeer(step) && s.toCoordinator == ToCoordinator(step)
  }

  lemma OffersAreMade(files: Offered -> nat, s: System, step: nat)
    requires Scene(files, s, step) && (step == 0 || step == 3 || step == 4 || step == 13)
    ensures Scene(files, Next(files, s, Script(step)), step + 1)
  {
    hide FilesBelow;
  }

  lemma ItsTurn(files: Offered -> nat, s: System, step: nat)
    requires Scene(files, s, step)
    ensures step == 1 ==> HasTurn(s, A)
    ensures step == 5 ==> HasTurn(s, B)
    ensures step == 14 ==> HasTurn(s, D)
  {
    hide FilesBelow;
    var made := s.peer.admitted;
    if step == 1 {
      assert made[0] == Own(A.handle);
    } else if step == 5 {
      assert made[1] == Own(B.handle) && made[0] == Own(A.handle);
    } else if step == 14 {
      assert made[3] == Own(D.handle) && made[0] == Own(A.handle) && made[1] == Own(B.handle) && made[2] == Peers(4);
    }
  }

  lemma ManifestsGoOut(files: Offered -> nat, s: System, step: nat)
    requires Scene(files, s, step) && (step == 1 || step == 5 || step == 9 || step == 14)
    ensures Scene(files, Next(files, s, Script(step)), step + 1)
  {
    hide FilesBelow, HasTurn;
    ItsTurn(files, s, step);
  }

  lemma FirstManifestsArrive(files: Offered -> nat, s: System, step: nat)
    requires Scene(files, s, step) && (step == 2 || step == 6)
    ensures Scene(files, Next(files, s, Script(step)), step + 1)
  {
    hide FilesBelow, HasTurn;
  }

  lemma LastManifestsArrive(files: Offered -> nat, s: System, step: nat)
    requires Scene(files, s, step) && (step == 11 || step == 15)
    ensures Scene(files, Next(files, s, Script(step)), step + 1)
  {
    hide FilesBelow, HasTurn;
  }

  lemma ReviewsEnd(files: Offered -> nat, s: System, step: nat)
    requires Scene(files, s, step) && (step == 7 || step == 16 || step == 20)
    ensures Scene(files, Next(files, s, Script(step)), step + 1)
  {
    hide FilesBelow, HasTurn;
  }

  lemma RefusedOffersClose(files: Offered -> nat, s: System, step: nat)
    requires Scene(files, s, step) && (step == 8 || step == 17)
    ensures Scene(files, Next(files, s, Script(step)), step + 1)
  {
    hide FilesBelow, HasTurn;
  }

  lemma RefusalsArrive(files: Offered -> nat, s: System, step: nat)
    requires Scene(files, s, step) && (step == 10 || step == 18)
    ensures Scene(files, Next(files, s, Script(step)), step + 1)
  {
    hide FilesBelow, HasTurn;
  }

  lemma RefusalsAreRead(files: Offered -> nat, s: System, step: nat)
    requires Scene(files, s, step) && (step == 12 || step == 19)
    ensures Scene(files, Next(files, s, Script(step)), step + 1)
  {
    hide FilesBelow, HasTurn;
  }

  lemma SceneGoesOn(files: Offered -> nat, s: System, step: nat)
    requires Scene(files, s, step) && step < LAST
    ensures Scene(files, Next(files, s, Script(step)), step + 1)
  {
    hide Scene, Next, Script;
    if step == 0 || step == 3 || step == 4 || step == 13 {
      OffersAreMade(files, s, step);
    } else if step == 1 || step == 5 || step == 9 || step == 14 {
      ManifestsGoOut(files, s, step);
    } else if step == 2 || step == 6 {
      FirstManifestsArrive(files, s, step);
    } else if step == 11 || step == 15 {
      LastManifestsArrive(files, s, step);
    } else if step == 10 || step == 18 {
      RefusalsArrive(files, s, step);
    } else if step == 12 || step == 19 {
      RefusalsAreRead(files, s, step);
    } else if step == 8 || step == 17 {
      RefusedOffersClose(files, s, step);
    } else {
      ReviewsEnd(files, s, step);
    }
  }

  lemma {:induction false} PlayedFrom(files: Offered -> nat, s: System, step: nat) returns (actions: seq<Action>)
    requires Scene(files, s, step) && step <= LAST
    ensures Scene(files, After(files, s, actions), LAST)
    decreases LAST - step
  {
    hide Scene, Next, Script;
    if step == LAST {
      actions := [];
    } else {
      SceneGoesOn(files, s, step);
      var rest := PlayedFrom(files, Next(files, s, Script(step)), step + 1);
      actions := [Script(step)] + rest;
      assert actions[1..] == rest;
    }
  }

  lemma LastSceneIsBlocked(files: Offered -> nat, s: System)
    requires Scene(files, s, LAST)
    ensures !s.broken && RecordOf(s, B).taker.accepted && Blocked(s, B)
  {
    hide FilesBelow;
  }

  /** There are runs after which an accepted offer never begins, whatever either user does
      and however often either cancels. */
  lemma DeadlocksHappen(files: Offered -> nat)
    ensures exists actions ::
              var s := After(files, Start(), actions);
              && !s.broken && RecordOf(s, B).taker.accepted
              && forall more :: RecordOf(After(files, s, more), B).owner.phase.Waiting?
  {
    hide After, Scene, More;
    StartIsScene(files);
    var actions := PlayedFrom(files, Start(), 0);
    var s := After(files, Start(), actions);
    LastSceneIsBlocked(files, s);
    StartHasMore(files);
    RunKeepsMore(files, Start(), actions);
    forall more ensures RecordOf(After(files, s, more), B).owner.phase.Waiting? {
      DeadlockIsForGood(files, s, more, B.handle, s.peer.slots.outgoing.value);
    }
  }

  lemma StartIsScene(files: Offered -> nat)
    ensures Scene(files, Start(), 0)
  {
  }
}
