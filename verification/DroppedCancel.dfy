/** A cancel request that finds its offer still waiting: it is dropped, and the offer goes
    out whole. */
module DroppedCancel {
  import opened Names
  import opened Coordinator
  import opened OneOffer
  import opened Steps
  import opened Standstill
  import opened CancelCommands

  const A := Peers(1)
  const B := Peers(2)

  const COMMAND := 10
  const LAST := 29

  /** The accepting peer refuses `A`, accepts `B`, of one file, and cancels it before the
      connecting peer has read the refusal; a second command changes nothing. */
  function Script(step: nat): Action
    requires step < LAST
  {
    match step
    case 0 => NewOffer(A)
    case 1 => OfferMove(A, SendManifest)
    case 2 => DeliverToCoordinator
    case 3 => NewOffer(B)
    case 4 => OfferMove(B, SendManifest)
    case 5 => DeliverToCoordinator
    case 6 => OfferMove(A, Reject)
    case 7 => OfferMove(A, Close)
    case 8 => OfferMove(B, Accept)
    case 9 => OfferMove(B, SendDecision)
    case 10 => CancelCommand(true)
    case 11 => OfferMove(B, SendRequest)
    case 12 => DeliverToPeer
    case 13 => DeliverToPeer
    case 14 => DeliverToPeer
    case 15 => OfferMove(A, TakeDecision)
    case 16 => OfferMove(B, TakeDecision)
    case 17 => CancelCommand(true)
    case 18 => OfferMove(B, SendContent(0))
    case 19 => OfferMove(B, SendTerminal(0, true))
    case 20 => DeliverToCoordinator
    case 21 => DeliverToCoordinator
    case 22 => DeliverToPeer
    case 23 => OfferMove(B, TakeResult)
    case 24 => OfferMove(B, SendBatch)
    case 25 => DeliverToCoordinator
    case 26 => OfferMove(B, Close)
    case 27 => DeliverToPeer
    case _ => OfferMove(B, TakeResult)
  }

  // ---- what each scene looks like ----

  function SceneA(n: nat, step: nat): Record {
    if step == 0 then FRESH
    else
      Record(Submitted(FRESH, n).owner.(phase := if step == 1 then Created else if step <= 15 then Waiting else Gone(false),
                                        decision := if 13 <= step <= 15 then Some(false) else None),
             FRESH.taker.(status := if step <= 2 then Unseen else if step <= 6 then Pending else if step == 7 then Closing(false) else Closed(false)))
  }

  function OwnerOfB(step: nat): Owned {
    if step <= 3 then FRESH.owner
    else
      Submitted(FRESH, 1).owner.(
        phase := if step == 4 then Created else if step <= 16 then Waiting else if step <= 24 then Running else if step <= 28 then Finishing else Gone(false),
        decision := if 14 <= step <= 16 then Some(true) else None,
        heard := if step <= 14 then None else Some(false),
        left := if step <= 19 then FilesBelow(1) else FilesBelow(1) - {0},
        got := if step <= 23 then 0 else 1,
        inbox := if step == 23 then [FileResult] else if step == 28 then [FinalResult] else [])
  }

  function TakerOfB(step: nat): Held {
    FRESH.taker.(status := if step <= 5 then Unseen else if step <= 8 then Pending else if step <= 25 then Accepted
                           else if step == 26 then Closing(false) else Closed(false),
                 accepted := step >= 9, decisionOwed := step == 9, requested := step >= 11, requestsOwed := if step == 11 then 1 else 0)
  }

  function PeerSlots(step: nat): Slots {
    NoOffers(Outbound).(
      outgoing := if step == 0 || step == 29 then None else if step <= 15 then Some(1) else Some(2),
      outgoingQueue := if 4 <= step <= 15 then [2] else [],
      transferring := if 17 <= step <= 28 then Some(Own(2)) else None)
  }

  function PeerAdmitted(step: nat): seq<Offered> {
    if step == 0 then [] else if step <= 3 then [Own(1)] else [Own(1), Own(2)]
  }

  function CoordinatorSlots(step: nat): Slots {
    NoOffers(Inbound).(
      incoming := if 3 <= step <= 7 then Some(1) else if 8 <= step <= 26 then Some(2) else None,
      coordinatorActive := 3 <= step <= 26,
      coordinatorQueue := if step == 6 || step == 7 then [B] else [],
      transferring := if 9 <= step <= 26 then Some(B) else None)
  }

  function ToPeer(step: nat): seq<Sent> {
    var refusal, acceptance, request := Sent(A, Decision(false)), Sent(B, Decision(true)), Sent(B, CancelFrame);
    if 7 <= step <= 9 then [refusal]
    else if step == 10 || step == 11 then [refusal, acceptance]
    else if step == 12 then [refusal, acceptance, request]
    else if step == 13 then [acceptance, request]
    else if step == 14 then [request]
    else if step == 22 then [Sent(B, FileResult)]
    else if step == 26 || step == 27 then [Sent(B, FinalResult)]
    else []
  }

  function ToCoordinator(step: nat): seq<Sent> {
    if step == 2 then [Sent(A, Manifest)]
    else if step == 5 then [Sent(B, Manifest)]
    else if step == 19 then [Sent(B, Content(0))]
    else if step == 20 then [Sent(B, Content(0)), Sent(B, Terminal(0, true))]
    else if step == 21 then [Sent(B, Terminal(0, true))]
    else if step == 25 then [Sent(B, Batch)]
    else []
  }

  ghost predicate Scene(files: Offered -> nat, s: System, step: nat) {
    && files(B) == 1 && !s.broken
    && RecordOf(s, A) == SceneA(files(A), step)
    && RecordOf(s, B) == Record(OwnerOfB(step), TakerOfB(step))
    && s.peer.slots == PeerSlots(step) && s.peer.admitted == PeerAdmitted(step)
    && s.coordinator.slots == CoordinatorSlots(step)
    && s.toPeer == ToPeer(step) && s.toCoordinator == ToCoordinator(step)
  }

  lemma OfferScenes(files: Offered -> nat, s: System, step: nat)
    requires Scene(files, s, step) && (step == 0 || step == 3)
    ensures Scene(files, Next(files, s, Script(step)), step + 1)
  {
    hide FilesBelow, HasTurn;
  }

  lemma ManifestScenes(files: Offered -> nat, s: System, step: nat)
    requires Scene(files, s, step) && (step == 1 || step == 4)
    ensures Scene(files, Next(files, s, Script(step)), step + 1)
  {
    hide FilesBelow;
    assert s.peer.admitted[0] == Own(A.handle);
    assert step == 4 ==> s.peer.admitted[1] == Own(B.handle);
  }

  lemma ArrivalScenes(files: Offered -> nat, s: System, step: nat)
    requires Scene(files, s, step) && (step == 2 || step == 5)
    ensures Scene(files, Next(files, s, Script(step)), step + 1)
  {
    hide FilesBelow, HasTurn;
  }

  lemma RefusalScenes(files: Offered -> nat, s: System, step: nat)
    requires Scene(files, s, step) && (step == 6 || step == 7)
    ensures Scene(files, Next(files, s, Script(step)), step + 1)
  {
    hide FilesBelow, HasTurn;
  }

  lemma AcceptanceScenes(files: Offered -> nat, s: System, step: nat)
    requires Scene(files, s, step) && (step == 8 || step == 9)
    ensures Scene(files, Next(files, s, Script(step)), step + 1)
  {
    hide FilesBelow, HasTurn;
  }

  lemma RequestScenes(files: Offered -> nat, s: System, step: nat)
    requires Scene(files, s, step) && (step == 10 || step == 11)
    ensures Scene(files, Next(files, s, Script(step)), step + 1)
  {
    hide FilesBelow, HasTurn;
  }

  lemma DecisionScenes(files: Offered -> nat, s: System, step: nat)
    requires Scene(files, s, step) && (step == 12 || step == 13)
    ensures Scene(files, Next(files, s, Script(step)), step + 1)
  {
    hide FilesBelow, HasTurn;
  }

  lemma DroppedScene(files: Offered -> nat, s: System, step: nat)
    requires Scene(files, s, step) && step == 14
    ensures Scene(files, Next(files, s, Script(step)), step + 1)
  {
    hide FilesBelow, HasTurn;
  }

  lemma FreedScenes(files: Offered -> nat, s: System, step: nat)
    requires Scene(files, s, step) && step == 15
    ensures Scene(files, Next(files, s, Script(step)), step + 1)
  {
    hide FilesBelow, HasTurn;
  }

  lemma BeginningScenes(files: Offered -> nat, s: System, step: nat)
    requires Scene(files, s, step) && (step == 16 || step == 17)
    ensures Scene(files, Next(files, s, Script(step)), step + 1)
  {
    hide FilesBelow, HasTurn;
  }

  lemma ContentScenes(files: Offered -> nat, s: System, step: nat)
    requires Scene(files, s, step) && (step == 18 || step == 19)
    ensures Scene(files, Next(files, s, Script(step)), step + 1)
  {
    hide HasTurn;
    assert 0 in FilesBelow(1);
  }

  lemma ChunkScenes(files: Offered -> nat, s: System, step: nat)
    requires Scene(files, s, step) && (step == 20 || step == 21)
    ensures Scene(files, Next(files, s, Script(step)), step + 1)
  {
    hide FilesBelow, HasTurn;
  }

  lemma ResultScenes(files: Offered -> nat, s: System, step: nat)
    requires Scene(files, s, step) && (step == 22 || step == 23)
    ensures Scene(files, Next(files, s, Script(step)), step + 1)
  {
    hide FilesBelow, HasTurn;
  }

  lemma BatchScenes(files: Offered -> nat, s: System, step: nat)
    requires Scene(files, s, step) && (step == 24 || step == 25)
    ensures Scene(files, Next(files, s, Script(step)), step + 1)
  {
    hide FilesBelow, HasTurn;
  }

  lemma ClosingScenes(files: Offered -> nat, s: System, step: nat)
    requires Scene(files, s, step) && (step == 26 || step == 27)
    ensures Scene(files, Next(files, s, Script(step)), step + 1)
  {
    hide FilesBelow, HasTurn;
  }

  lemma EndingScene(files: Offered -> nat, s: System, step: nat)
    requires Scene(files, s, step) && step == 28
    ensures Scene(files, Next(files, s, Script(step)), step + 1)
  {
    hide FilesBelow, HasTurn;
  }

  lemma SceneGoesOn(files: Offered -> nat, s: System, step: nat)
    requires Scene(files, s, step) && step < LAST
    ensures Scene(files, Next(files, s, Script(step)), step + 1)
  {
    hide Scene, Next, Script;
    if step == 0 || step == 3 {
      OfferScenes(files, s, step);
    } else if step == 1 || step == 4 {
      ManifestScenes(files, s, step);
    } else if step == 2 || step == 5 {
      ArrivalScenes(files, s, step);
    } else if step == 6 || step == 7 {
      RefusalScenes(files, s, step);
    } else if step == 8 || step == 9 {
      AcceptanceScenes(files, s, step);
    } else if step == 10 || step == 11 {
      RequestScenes(files, s, step);
    } else if step == 12 || step == 13 {
      DecisionScenes(files, s, step);
    } else if step == 14 {
      DroppedScene(files, s, step);
    } else if step == 15 {
      FreedScenes(files, s, step);
    } else if step == 16 || step == 17 {
      BeginningScenes(files, s, step);
    } else if step == 18 || step == 19 {
      ContentScenes(files, s, step);
    } else if step == 20 || step == 21 {
      ChunkScenes(files, s, step);
    } else if step == 22 || step == 23 {
      ResultScenes(files, s, step);
    } else if step == 24 || step == 25 {
      BatchScenes(files, s, step);
    } else if step == 26 || step == 27 {
      ClosingScenes(files, s, step);
    } else {
      EndingScene(files, s, step);
    }
  }

  /** Nothing happens to any other offer. */
  ghost predicate OnlyTwo(s: System) { forall z | z != A && z != B :: RecordOf(s, z) == FRESH }

  lemma StepIsOfTheTwo(files: Offered -> nat, s: System, step: nat)
    requires Scene(files, s, step) && step < LAST && StepOf(files, s, Script(step)).Some?
    ensures var z := StepOf(files, s, Script(step)).value.offer; z == A || z == B
  {
    hide FilesBelow, CanMove, CanDeliver, Moved, Arrived, PlacesOf, RecordOf, Takes;
  }

  lemma OthersStayFresh(files: Offered -> nat, s: System, step: nat)
    requires Scene(files, s, step) && OnlyTwo(s) && step < LAST
    ensures OnlyTwo(Next(files, s, Script(step)))
  {
    hide Scene, StepOf, Next, Taking, OwnerStep, ReceiverStep, Lasts;
    NextTakes(files, s, Script(step));
    NoStepIsTaken(s);
    if StepOf(files, s, Script(step)).Some? {
      StepIsProper(files, s, Script(step));
      StepIsOfTheTwo(files, s, step);
      AfterStep(s, StepOf(files, s, Script(step)).value);
    }
  }

  lemma {:induction false} Played(files: Offered -> nat, s: System, step: nat, end: nat) returns (actions: seq<Action>)
    requires Scene(files, s, step) && OnlyTwo(s) && step <= end <= LAST
    ensures Scene(files, After(files, s, actions), end) && OnlyTwo(After(files, s, actions))
    ensures step > COMMAND ==> OwnerIsQuiet(files, s, actions, B)
    decreases end - step
  {
    hide Scene, OnlyTwo, Next, Script;
    if step == end {
      actions := [];
    } else {
      SceneGoesOn(files, s, step);
      OthersStayFresh(files, s, step);
      OnlyTheOtherCancels(s, step);
      var rest := Played(files, Next(files, s, Script(step)), step + 1, end);
      actions := [Script(step)] + rest;
      assert actions[1..] == rest;
    }
  }

  lemma OnlyTheOtherCancels(s: System, step: nat)
    requires step < LAST
    ensures !Picks(s, Script(step), B, true)
  {
  }

  lemma CommandPicks(files: Offered -> nat, s: System)
    requires Scene(files, s, COMMAND)
    ensures !s.broken && Picked(s, true) == Some(B) && RecordOf(s, B).taker.accepted && !RecordOf(s, B).taker.requested
    ensures Script(COMMAND) == CancelCommand(true)
  {
    hide FilesBelow;
  }

  lemma OfferIsAtRest(files: Offered -> nat, s: System, z: Offered)
    requires Scene(files, s, LAST) && OnlyTwo(s)
    ensures NothingDue(files(z), RecordOf(s, z), PlacesOf(s, z))
  {
    hide FilesBelow;
    assert z != A && z != B ==> RecordOf(s, z) == FRESH;
  }

  lemma SceneIsAtRest(files: Offered -> nat, s: System)
    requires Scene(files, s, LAST) && OnlyTwo(s)
    ensures AtRest(files, s) && Completed(RecordOf(s, B))
  {
    hide FilesBelow, NothingDue, PlacesOf, PeerSlots, CoordinatorSlots;
    forall z ensures NothingDue(files(z), RecordOf(s, z), PlacesOf(s, z)) {
      OfferIsAtRest(files, s, z);
    }
  }

  lemma StartIsScene(files: Offered -> nat)
    requires files(B) == 1
    ensures Scene(files, Start(), 0) && OnlyTwo(Start())
  {
  }

  /** There are runs in which the accepting peer cancels the transfer, its owner's user does
      not, and the offer completes. */
  lemma CanceledTransfersCanComplete(files: Offered -> nat)
    requires files(B) == 1
    ensures exists before, after ::
              var s, v := After(files, Start(), before), Commanded(files, before, true);
              var t := After(files, v, after);
              && !s.broken && Picked(s, true) == Some(B) && RecordOf(s, B).taker.accepted
              && OwnerIsQuiet(files, v, after, B) && AtRest(files, t) && Completed(RecordOf(t, B))
  {
    hide After, Scene, OnlyTwo, AtRest, Next, Script, Picked, Completed, OwnerIsQuiet;
    StartIsScene(files);
    var before := Played(files, Start(), 0, COMMAND);
    var s := After(files, Start(), before);
    CommandPicks(files, s);
    SceneGoesOn(files, s, COMMAND);
    OthersStayFresh(files, s, COMMAND);
    var after := Played(files, Commanded(files, before, true), COMMAND + 1, LAST);
    SceneIsAtRest(files, After(files, Commanded(files, before, true), after));
  }
}
