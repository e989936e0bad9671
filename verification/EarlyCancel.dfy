/** A cancel command that comes before the acceptance: an offer with files is then in
    progress for good, until the accepting peer cancels too, and one without completes. */
module EarlyCancel {
  import opened Names
  import opened Coordinator
  import opened OneOffer
  import opened Steps
  import opened Standstill
  import opened CancelCommands

  const O := Own(1)
  const D := Peers(2)

  const COMMAND := 6
  const ACCEPTED := 22
  const LAST := 27

  /** While the accepting peer's `O`, of no file, is in progress, the connecting peer's user
      sends `D` and cancels; the command picks `D`, which is accepted later. What follows is
      for a `D` of no file. */
  function Script(step: nat): Action
    requires step < LAST
  {
    match step
    case 0 => NewOffer(O)
    case 1 => OfferMove(O, SendManifest)
    case 2 => DeliverToPeer
    case 3 => OfferMove(O, Accept)
    case 4 => NewOffer(D)
    case 5 => OfferMove(D, SendManifest)
    case 6 => CancelCommand(false)
    case 7 => OfferMove(D, SendCancel)
    case 8 => DeliverToCoordinator
    case 9 => DeliverToCoordinator
    case 10 => OfferMove(O, SendDecision)
    case 11 => DeliverToCoordinator
    case 12 => OfferMove(O, TakeDecision)
    case 13 => OfferMove(O, SendBatch)
    case 14 => DeliverToPeer
    case 15 => DeliverToCoordinator
    case 16 => OfferMove(O, Close)
    case 17 => OfferMove(O, TakeResult)
    case 18 => OfferMove(D, Accept)
    case 19 => OfferMove(D, SendDecision)
    case 20 => DeliverToPeer
    case 21 => OfferMove(D, TakeDecision)
    case 22 => OfferMove(D, SendBatch)
    case 23 => DeliverToCoordinator
    case 24 => OfferMove(D, Close)
    case 25 => DeliverToPeer
    case _ => OfferMove(D, TakeResult)
  }

  // ---- what each scene looks like ----

  function OwnerOfO(n: nat, step: nat): Owned {
    var owner := Submitted(FRESH, n).owner.(phase := if step <= 1 then Created else if step <= 12 then Waiting else if step == 13 then Running else if step <= 17 then Finishing else Gone(false));
    if step == 0 then FRESH.owner
    else owner.(decision := if step == 12 then Some(true) else None, inbox := if step == 16 || step == 17 then [FinalResult] else [])
  }

  function TakerOfO(step: nat): Held {
    FRESH.taker.(status := if step <= 2 then Unseen else if step == 3 then Pending else if step <= 14 then Accepted else if step <= 16 then Closing(false) else Closed(false),
                 accepted := step >= 4, decisionOwed := 4 <= step <= 10)
  }

  function OwnerOfD(n: nat, step: nat): Owned {
    if step <= 4 then FRESH.owner
    else
      Submitted(FRESH, n).owner.(
        phase := if step == 5 then Created else if step <= 21 then Waiting else if step == 22 then Running else if step <= 26 then Finishing else Gone(false),
        canceled := step >= 7, cancelsOwed := if step == 7 then 1 else 0,
        decision := if step == 21 then Some(true) else None,
        inbox := if step == 26 then [FinalResult] else [])
  }

  function TakerOfD(step: nat): Held {
    FRESH.taker.(status := if step <= 8 then Unseen else if step <= 18 then Pending else if step <= 23 then Accepted else if step == 24 then Closing(false) else Closed(false),
                 accepted := step >= 19, decisionOwed := step == 19)
  }

  function PeerSlots(step: nat): Slots {
    NoOffers(Outbound).(
      outgoing := if 5 <= step <= 26 then Some(2) else None,
      incoming := if 3 <= step <= 16 then Some(1) else None,
      transferring := if 4 <= step <= 16 then Some(Peers(1)) else if 22 <= step <= 26 then Some(Own(2)) else None)
  }

  function PeerAdmitted(step: nat): seq<Offered> {
    if step <= 2 then [] else if step <= 4 then [Peers(1)] else [Peers(1), Own(2)]
  }

  function CoordinatorSlots(step: nat): Slots {
    NoOffers(Inbound).(
      outgoing := if 1 <= step <= 17 then Some(1) else None,
      incoming := if 18 <= step <= 24 then Some(2) else None,
      coordinatorActive := 1 <= step <= 24,
      coordinatorQueue := if 9 <= step <= 17 then [D] else [],
      transferring := if 13 <= step <= 17 then Some(O) else if 19 <= step <= 24 then Some(D) else None)
  }

  function ToPeer(step: nat): seq<Sent> {
    if step == 2 then [Sent(O, Manifest)] else if step == 14 then [Sent(O, Batch)] else if step == 20 then [Sent(D, Decision(true))]
    else if step == 24 || step == 25 then [Sent(D, FinalResult)] else []
  }

  function ToCoordinator(step: nat): seq<Sent> {
    if step == 6 || step == 7 then [Sent(D, Manifest)] else if step == 8 then [Sent(D, Manifest), Sent(D, CancelFrame)]
    else if step == 9 then [Sent(D, CancelFrame)] else if step == 11 then [Sent(O, Decision(true))]
    else if step == 15 then [Sent(O, FinalResult)] else if step == 23 then [Sent(D, Batch)] else []
  }

  ghost predicate Scene(files: Offered -> nat, s: System, step: nat) {
    && !s.broken
    && RecordOf(s, O) == Record(OwnerOfO(files(O), step), TakerOfO(step))
    && RecordOf(s, D) == Record(OwnerOfD(files(D), step), TakerOfD(step))
    && s.peer.slots == PeerSlots(step) && s.peer.admitted == PeerAdmitted(step)
    && s.coordinator.slots == CoordinatorSlots(step)
    && s.toPeer == ToPeer(step) && s.toCoordinator == ToCoordinator(step)
  }

  lemma OfferScenes(files: Offered -> nat, s: System, step: nat)
    requires Scene(files, s, step) && 0 <= step <= 1
    ensures Scene(files, Next(files, s, Script(step)), step + 1)
  {
    hide FilesBelow, HasTurn;
  }

  lemma ReviewScenes(files: Offered -> nat, s: System, step: nat)
    requires Scene(files, s, step) && 2 <= step <= 3
    ensures Scene(files, Next(files, s, Script(step)), step + 1)
  {
    hide FilesBelow, HasTurn;
  }

  lemma CancelScenes(files: Offered -> nat, s: System, step: nat)
    requires Scene(files, s, step) && (step == 4 || step == 6)
    ensures Scene(files, Next(files, s, Script(step)), step + 1)
  {
    hide FilesBelow, HasTurn;
  }

  lemma SendScenes(files: Offered -> nat, s: System, step: nat)
    requires Scene(files, s, step) && (step == 5 || step == 7)
    ensures Scene(files, Next(files, s, Script(step)), step + 1)
  {
    hide FilesBelow;
    assert s.peer.admitted[1] == Own(D.handle) && s.peer.admitted[0].Peers?;
  }

  lemma ManifestScene(files: Offered -> nat, s: System, step: nat)
    requires Scene(files, s, step) && step == 8
    ensures Scene(files, Next(files, s, Script(step)), step + 1)
  {
    hide FilesBelow, HasTurn;
  }

  lemma DroppedScene(files: Offered -> nat, s: System, step: nat)
    requires Scene(files, s, step) && step == 9
    ensures Scene(files, Next(files, s, Script(step)), step + 1)
  {
    hide FilesBelow, HasTurn;
  }

  lemma DecisionScene(files: Offered -> nat, s: System, step: nat)
    requires Scene(files, s, step) && step == 10
    ensures Scene(files, Next(files, s, Script(step)), step + 1)
  {
    hide FilesBelow, HasTurn;
  }

  lemma AcceptanceScenes(files: Offered -> nat, s: System, step: nat)
    requires Scene(files, s, step) && 11 <= step <= 12 && files(O) == 0
    ensures Scene(files, Next(files, s, Script(step)), step + 1)
  {
    hide FilesBelow, HasTurn;
  }

  lemma BatchScenes(files: Offered -> nat, s: System, step: nat)
    requires Scene(files, s, step) && 13 <= step <= 14 && files(O) == 0
    ensures Scene(files, Next(files, s, Script(step)), step + 1)
  {
    hide FilesBelow, HasTurn;
  }

  lemma ResultScene(files: Offered -> nat, s: System, step: nat)
    requires Scene(files, s, step) && step == 15
    ensures Scene(files, Next(files, s, Script(step)), step + 1)
  {
    hide FilesBelow, HasTurn;
  }

  lemma ClosingScene(files: Offered -> nat, s: System, step: nat)
    requires Scene(files, s, step) && step == 16
    ensures Scene(files, Next(files, s, Script(step)), step + 1)
  {
    hide FilesBelow, HasTurn;
  }

  lemma EndingScene(files: Offered -> nat, s: System, step: nat)
    requires Scene(files, s, step) && step == 17
    ensures Scene(files, Next(files, s, Script(step)), step + 1)
  {
    hide FilesBelow, HasTurn;
  }

  lemma NextReviewScenes(files: Offered -> nat, s: System, step: nat)
    requires Scene(files, s, step) && 18 <= step <= 19
    ensures Scene(files, Next(files, s, Script(step)), step + 1)
  {
    hide FilesBelow, HasTurn;
  }

  lemma NextAcceptanceScenes(files: Offered -> nat, s: System, step: nat)
    requires Scene(files, s, step) && 20 <= step <= 21
    ensures Scene(files, Next(files, s, Script(step)), step + 1)
  {
    hide FilesBelow, HasTurn;
  }

  lemma LastBatchScenes(files: Offered -> nat, s: System, step: nat)
    requires Scene(files, s, step) && 22 <= step <= 23 && files(D) == 0
    ensures Scene(files, Next(files, s, Script(step)), step + 1)
  {
    hide FilesBelow, HasTurn;
  }

  lemma LastClosingScenes(files: Offered -> nat, s: System, step: nat)
    requires Scene(files, s, step) && 24 <= step <= 25
    ensures Scene(files, Next(files, s, Script(step)), step + 1)
  {
    hide FilesBelow, HasTurn;
  }

  lemma LastEndingScene(files: Offered -> nat, s: System, step: nat)
    requires Scene(files, s, step) && step == 26
    ensures Scene(files, Next(files, s, Script(step)), step + 1)
  {
    hide FilesBelow, HasTurn;
  }

  lemma SceneGoesOn(files: Offered -> nat, s: System, step: nat)
    requires Scene(files, s, step) && step < LAST && files(O) == 0 && (step >= ACCEPTED ==> files(D) == 0)
    ensures Scene(files, Next(files, s, Script(step)), step + 1)
  {
    hide Scene, Next, Script;
    if step <= 1 {
      OfferScenes(files, s, step);
    } else if step <= 3 {
      ReviewScenes(files, s, step);
    } else if step == 4 || step == 6 {
      CancelScenes(files, s, step);
    } else if step <= 7 {
      SendScenes(files, s, step);
    } else if step == 8 {
      ManifestScene(files, s, step);
    } else if step == 9 {
      DroppedScene(files, s, step);
    } else if step <= 10 {
      DecisionScene(files, s, step);
    } else if step <= 12 {
      AcceptanceScenes(files, s, step);
    } else if step <= 14 {
      BatchScenes(files, s, step);
    } else if step == 15 {
      ResultScene(files, s, step);
    } else if step == 16 {
      ClosingScene(files, s, step);
    } else if step <= 17 {
      EndingScene(files, s, step);
    } else if step <= 19 {
      NextReviewScenes(files, s, step);
    } else if step <= 21 {
      NextAcceptanceScenes(files, s, step);
    } else if step <= 23 {
      LastBatchScenes(files, s, step);
    } else if step <= 25 {
      LastClosingScenes(files, s, step);
    } else {
      LastEndingScene(files, s, step);
    }
  }

  /** Nothing happens to any other offer. */
  ghost predicate OnlyTwo(s: System) { forall z | z != O && z != D :: RecordOf(s, z) == FRESH }

  lemma StepIsOfTheTwo(files: Offered -> nat, s: System, step: nat)
    requires Scene(files, s, step) && step < LAST && StepOf(files, s, Script(step)).Some?
    ensures var z := StepOf(files, s, Script(step)).value.offer; z == O || z == D
  {
    hide FilesBelow, CanMove, CanDeliver, Moved, Arrived, PlacesOf, RecordOf, Takes;
  }

  lemma OthersStayFresh(files: Offered -> nat, s: System, step: nat)
    requires Scene(files, s, step) && OnlyTwo(s) && step < LAST
    ensures OnlyTwo(Next(files, s, Script(step)))
  {
    hide Scene, StepOf, Next, Taking, OwnerStep, ReceiverStep, Lasts;
    NextTakes(files, s, Script(step));
    NoStepIsTaken(s);
    if StepOf(files, s, Script(step)).Some? {
      StepIsProper(files, s, Script(step));
      StepIsOfTheTwo(files, s, step);
      AfterStep(s, StepOf(files, s, Script(step)).value);
    }
  }

  lemma {:induction false} Played(files: Offered -> nat, s: System, step: nat, end: nat) returns (actions: seq<Action>)
    requires Scene(files, s, step) && OnlyTwo(s) && step <= end <= LAST && files(O) == 0 && (end > ACCEPTED ==> files(D) == 0)
    ensures Scene(files, After(files, s, actions), end) && OnlyTwo(After(files, s, actions))
    decreases end - step
  {
    hide Scene, OnlyTwo, Next, Script;
    if step == end {
      actions := [];
    } else {
      SceneGoesOn(files, s, step);
      OthersStayFresh(files, s, step);
      var rest := Played(files, Next(files, s, Script(step)), step + 1, end);
      actions := [Script(step)] + rest;
      assert actions[1..] == rest;
    }
  }

  predicate IsOver(files: Offered -> nat, step: nat) { (step == ACCEPTED && files(D) > 0) || step == LAST }

  lemma OfferIsAtRest(files: Offered -> nat, s: System, step: nat, z: Offered)
    requires Scene(files, s, step) && OnlyTwo(s) && IsOver(files, step)
    ensures NothingDue(files(z), RecordOf(s, z), PlacesOf(s, z))
  {
    hide FilesBelow;
    assert z != O && z != D ==> RecordOf(s, z) == FRESH;
  }

  lemma SceneIsAtRest(files: Offered -> nat, s: System, step: nat)
    requires Scene(files, s, step) && OnlyTwo(s) && IsOver(files, step)
    ensures AtRest(files, s) && RecordOf(s, D).taker.accepted
    ensures if step == LAST then Completed(RecordOf(s, D)) && !RecordOf(s, D).taker.requested else FlaggedEarly(s, D)
  {
    hide FilesBelow, NothingDue, PlacesOf, PeerSlots, CoordinatorSlots;
    forall z ensures NothingDue(files(z), RecordOf(s, z), PlacesOf(s, z)) {
      OfferIsAtRest(files, s, step, z);
    }
  }

  lemma StartIsScene(files: Offered -> nat)
    ensures Scene(files, Start(), 0) && OnlyTwo(Start())
  {
  }

  /** There are runs that come to rest with an accepted offer in progress. */
  lemma EarlyCancelsHappen(files: Offered -> nat)
    requires files(O) == 0 && files(D) > 0
    ensures exists actions ::
              var s := After(files, Start(), actions); AtRest(files, s) && RecordOf(s, D).taker.accepted && FlaggedEarly(s, D)
  {
    hide After, Scene, OnlyTwo, AtRest;
    StartIsScene(files);
    var actions := Played(files, Start(), 0, ACCEPTED);
    SceneIsAtRest(files, After(files, Start(), actions), ACCEPTED);
  }

  lemma CommandPicks(files: Offered -> nat, s: System)
    requires Scene(files, s, COMMAND)
    ensures !s.broken && Picked(s, false) == Some(D) && !RecordOf(s, D).owner.canceled && Script(COMMAND) == CancelCommand(false)
  {
  }

  /** And there are runs in which the connecting peer's command picks an offer that is
      accepted later, and completes. */
  lemma CanceledOffersCanComplete(files: Offered -> nat)
    requires files(O) == 0 && files(D) == 0
    ensures exists before, after ::
              var s, t := After(files, Start(), before), After(files, Commanded(files, before, false), after);
              !s.broken && Picked(s, false) == Some(D) && AtRest(files, t) && Completed(RecordOf(t, D)) && !RecordOf(t, D).taker.requested
  {
    hide After, Scene, OnlyTwo, AtRest, Next, Script, Picked, Completed;
    StartIsScene(files);
    var before := Played(files, Start(), 0, COMMAND);
    var s := After(files, Start(), before);
    CommandPicks(files, s);
    SceneGoesOn(files, s, COMMAND);
    OthersStayFresh(files, s, COMMAND);
    var after := Played(files, Commanded(files, before, false), COMMAND + 1, LAST);
    SceneIsAtRest(files, After(files, Commanded(files, before, false), after), LAST);
  }
}
