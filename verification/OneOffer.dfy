/** Both peers, both wires, any number of offers: file content is on its way for one
    offer at a time. Runs end at the first frame that ends the session. */
module OneOffer {
  import opened Names
  import opened Coordinator

  /** `stopped` says whether the offer ended by a cancellation. */
  datatype Phase = Absent | Created | Waiting | Running | Finishing | Gone(stopped: bool)

  datatype Status = Unseen | Pending | Accepted | Closing(stopped: bool) | Closed(stopped: bool)

  /** `Terminal` is a completion, which is sent with a check of the cancel flag, or a
      failure frame, which is not. */
  datatype Frame =
    | Manifest
    | Content(file: nat)
    | Terminal(file: nat, complete: bool)
    | Batch
    | CancelFrame
    | Decision(yes: bool)
    | FileResult
    | FinalResult
    | CancelResult

  /** One offer, at its owner and at the peer that takes it. `heard` says whether a cancel
      request of the other peer found the offer in its owner's slot; `armed`, that the
      flag went up or was confirmed after the offer had been accepted; `late`, that a
      cancel frame was sent behind the batch. */
  datatype Owned = Owned(
    phase: Phase,
    canceled: bool,
    cancelsOwed: nat,
    decision: Option<bool>,
    left: set<nat>,
    got: nat,
    inbox: seq<Frame>,
    heard: Option<bool>,
    armed: bool,
    late: bool)

  datatype Held = Held(
    status: Status,
    accepted: bool,
    refused: bool,
    decisionOwed: bool,
    requested: bool,
    requestsOwed: nat)

  datatype Record = Record(owner: Owned, taker: Held)

  const FRESH := Record(Owned(Absent, false, 0, None, {}, 0, [], None, false, false), Held(Unseen, false, false, false, false, 0))

  const RESULT_BUFFER := 8

  /** Offers are named as the accepting peer sees them: `Own` is its own offer. */
  datatype Sent = Sent(offer: Offered, frame: Frame)

  datatype System = System(
    coordinator: Run,
    peer: Run,
    offers: map<Offered, Record>,
    toPeer: seq<Sent>,
    toCoordinator: seq<Sent>,
    broken: bool)

  function RecordOf(s: System, z: Offered): Record { if z in s.offers then s.offers[z] else FRESH }

  function OwnerRun(s: System, z: Offered): Run { if z.Own? then s.coordinator else s.peer }

  function OwnerSlots(s: System, z: Offered): Slots { OwnerRun(s, z).slots }

  function ReceiverSlots(s: System, z: Offered): Slots { if z.Own? then s.peer.slots else s.coordinator.slots }

  /** Where the offer stands in the two peers' slots. */
  datatype Places = Places(turn: bool, outgoing: bool, known: bool, incoming: bool)

  /** One command after the other: the manifests of the connecting peer's earlier offers
      have been sent. */
  predicate HasTurn(s: System, z: Offered) {
    exists j | 0 <= j < |s.peer.admitted| && s.peer.admitted[j] == Own(z.handle) ::
      forall i | 0 <= i < j && s.peer.admitted[i].Own? :: !RecordOf(s, Peers(s.peer.admitted[i].handle)).owner.phase.Created?
  }

  function PlacesOf(s: System, z: Offered): Places {
    var own := OwnerSlots(s, z);
    Places(if z.Own? then own.outgoing == Some(z.handle) else HasTurn(s, z),
           own.outgoing == Some(z.handle), own.outgoing == Some(z.handle) || z.handle in own.outgoingQueue,
           ReceiverSlots(s, z).incoming == Some(z.handle))
  }

  /** What one step of one offer does: to its record, to the wires, to the two slots. */
  datatype Effects = Effects(record: Record, forth: Option<Frame>, back: Option<Frame>, owner: Option<Op>, receiver: Option<Op>, broken: bool)

  function Just(r: Record): Effects { Effects(r, None, None, None, None, false) }

  function Breaks(r: Record): Effects { Effects(r, None, None, None, None, true) }

  function Sends(r: Record, frame: Frame): Effects { Effects(r, Some(frame), None, None, None, false) }

  function Replies(r: Record, frame: Frame): Effects { Effects(r, None, Some(frame), None, None, false) }

  function AtOwner(r: Record, op: Op): Effects { Effects(r, None, None, Some(op), None, false) }

  function AtReceiver(r: Record, op: Op): Effects { Effects(r, None, None, None, Some(op), false) }

  // ---- the owner's steps ----

  datatype Move =
    | SendManifest
    | TakeDecision
    | SendContent(file: nat)
    | SendTerminal(file: nat, complete: bool)
    | TakeResult
    | SendBatch
    | SendCancel
    | Accept
    | Reject
    | SendDecision
    | SendRequest
    | Close

  predicate CanMove(n: nat, r: Record, p: Places, m: Move) {
    var o, t := r.owner, r.taker;
    match m
    case SendManifest => o.phase == Created && p.turn
    case TakeDecision => o.phase == Waiting && p.outgoing && o.decision.Some?
    case SendContent(f) => o.phase == Running && !o.canceled && f in o.left
    case SendTerminal(f, complete) => o.phase == Running && f in o.left && (complete ==> !o.canceled)
    case TakeResult => o.inbox != [] && (o.phase == Finishing || (o.phase == Running && o.got < n))
    case SendBatch => o.phase == Running && o.got >= n
    case SendCancel => o.cancelsOwed > 0
    case Accept => t.status == Pending && p.incoming
    case Reject => t.status == Pending && p.incoming
    case SendDecision => t.decisionOwed
    case SendRequest => t.requestsOwed > 0
    case Close => t.status.Closing?
  }

  function Less(n: nat): nat { if n > 0 then n - 1 else 0 }

  function Moved(z: Offered, r: Record, m: Move): Effects {
    var o, t := r.owner, r.taker;
    match m
    case SendManifest => Sends(Record(o.(phase := Waiting), t), Manifest)
    case TakeDecision =>
      if o.decision == Some(true) then AtOwner(Record(o.(phase := Running, decision := None), t), TransferOp(Own(z.handle)))
      else AtOwner(Record(o.(phase := Gone(false), decision := None), t), ClearOp(Own(z.handle)))
    case SendContent(f) => Sends(r, Content(f))
    case SendTerminal(f, complete) => Sends(Record(o.(left := o.left - {f}), t), Terminal(f, complete))
    case TakeResult =>
      if o.inbox == [] then Just(r)
      else if o.phase == Finishing || o.inbox[0] == CancelResult then
        AtOwner(Record(o.(phase := Gone(o.inbox[0] == CancelResult), inbox := o.inbox[1..]), t), ClearOp(Own(z.handle)))
      else Just(Record(o.(inbox := o.inbox[1..], got := o.got + 1), t))
    case SendBatch => Sends(Record(o.(phase := Finishing), t), Batch)
    case SendCancel =>
      Sends(Record(o.(cancelsOwed := Less(o.cancelsOwed), late := o.late || o.phase.Finishing? || o.phase.Gone?), t), CancelFrame)
    case Accept =>
      AtReceiver(Record(o, t.(status := Accepted, accepted := true, decisionOwed := true)), TransferOp(Peers(z.handle)))
    case Reject => Replies(Record(o, t.(status := Closing(false))), Decision(false))
    case SendDecision => Replies(Record(o, t.(decisionOwed := false)), Decision(true))
    case SendRequest => Replies(Record(o, t.(requestsOwed := Less(t.requestsOwed))), CancelFrame)
    case Close => AtReceiver(Record(o, t.(status := Closed(t.status.Closing? && t.status.stopped))), ClearOp(Peers(z.handle)))
  }

  // ---- frames that arrive ----

  /** At the receiving peer; `room` says whether its slots take another offer, and
      `overlap` whether another one is in the way. */
  function Heard(z: Offered, r: Record, p: Places, frame: Frame, room: bool, overlap: bool): Effects {
    var o, t := r.owner, r.taker;
    var ready := p.incoming && t.status == Accepted;
    match frame
    case Manifest =>
      if overlap then Breaks(r)
      else if !room then Replies(Record(o, t.(status := Closed(false), refused := true)), Decision(false))
      else AtReceiver(Record(o, t.(status := Pending)), ReceiveOp(z.handle))
    case Content(_) => if ready then Just(r) else Breaks(r)
    case Terminal(_, _) => if ready then Replies(r, FileResult) else Breaks(r)
    case Batch => if ready then Replies(Record(o, t.(status := Closing(false))), FinalResult) else Breaks(r)
    case CancelFrame => if ready then Replies(Record(o, t.(status := Closing(true))), CancelResult) else Just(r)
    case _ => Breaks(r)
  }

  /** At the owner. A full buffer keeps the frame on the wire: see `CanDeliver`. */
  function Heeded(r: Record, p: Places, frame: Frame): Effects {
    var o, t := r.owner, r.taker;
    match frame
    case Decision(yes) => if p.known then Just(Record(o.(decision := Some(yes)), t)) else Breaks(r)
    case CancelFrame =>
      if p.outgoing then Just(Record(o.(canceled := true, cancelsOwed := o.cancelsOwed + 1, heard := Some(true), armed := true), t))
      else Just(Record(o.(heard := Some(false)), t))
    case _ => if IsResult(frame) && p.outgoing then Just(Record(o.(inbox := o.inbox + [frame]), t)) else Breaks(r)
  }

  predicate IsResult(frame: Frame) { frame.FileResult? || frame.FinalResult? || frame.CancelResult? }

  // ---- the whole system ----

  datatype Action =
    | NewOffer(z: Offered)
    | OfferMove(z: Offered, move: Move)
    | CancelCommand(atCoordinator: bool)
    | DeliverToPeer
    | DeliverToCoordinator

  /** A delivery to the coordinator of the coordinator's own offer goes to its owner. */
  predicate GoesToOwner(toCoordinator: bool, z: Offered) { toCoordinator == z.Own? }

  function SlotsAfter(slots: Slots, op: Option<Op>): Slots {
    match op
    case None => slots
    case Some(TransferOp(o)) => StartTransfer(slots, o)
    case Some(ClearOp(o)) => Clear(slots, o).0
    case Some(ReceiveOp(y)) => Receive(slots, y).0
    case Some(SubmitOp(x)) => Submit(slots, x).0
    case Some(CancelOp) => slots
  }

  function RunAfter(run: Run, op: Option<Op>): Run { if op.Some? then Coordinator.Apply(run, op.value) else run }

  function Tagged(z: Offered, frame: Option<Frame>): seq<Sent> { if frame.Some? then [Sent(z, frame.value)] else [] }

  function Apply(s: System, z: Offered, e: Effects): System {
    if e.broken then s.(broken := true)
    else
      s.(offers := s.offers[z := e.record],
         coordinator := RunAfter(s.coordinator, if z.Own? then e.owner else e.receiver),
         peer := RunAfter(s.peer, if z.Own? then e.receiver else e.owner),
         toPeer := s.toPeer + Tagged(z, if z.Own? then e.forth else e.back),
         toCoordinator := s.toCoordinator + Tagged(z, if z.Own? then e.back else e.forth))
  }

  function Arrived(s: System, sent: Sent, toCoordinator: bool): Effects {
    var z, r, p := sent.offer, RecordOf(s, sent.offer), PlacesOf(s, sent.offer);
    if GoesToOwner(toCoordinator, z) then Heeded(r, p, sent.frame)
    else
      var slots := ReceiverSlots(s, z);
      Heard(z, r, p, sent.frame, slots.role == Outbound || |slots.coordinatorQueue| < MAX_QUEUED_OFFERS,
            slots.role == Outbound && slots.incoming != None)
  }

  /** A result waits on the wire while the owner's buffer is full, and so does a second
      decision. */
  predicate CanDeliver(s: System, sent: Sent, toCoordinator: bool) {
    GoesToOwner(toCoordinator, sent.offer) ==>
      var r := RecordOf(s, sent.offer);
      && (IsResult(sent.frame) ==> |r.owner.inbox| < RESULT_BUFFER)
      && (sent.frame.Decision? ==> r.owner.decision == None)
  }

  function FilesBelow(n: nat): (files: set<nat>)
    ensures |files| == n && forall f :: f in files ==> f < n
  {
    if n == 0 then {} else FilesBelow(n - 1) + {n - 1}
  }

  function Submitted(r: Record, files: nat): Record { Record(r.owner.(phase := Created, left := FilesBelow(files)), r.taker) }

  predicate Takes(slots: Slots) {
    if slots.role == Inbound then |slots.coordinatorQueue| < MAX_QUEUED_OFFERS
    else slots.outgoing == None || |slots.outgoingQueue| < MAX_QUEUED_OFFERS
  }

  /** The offer the cancel command picks at one peer, by the accepting peer's naming. */
  function Picked(s: System, atCoordinator: bool): Option<Offered> {
    if atCoordinator then CancelTarget(s.coordinator.slots)
    else
      match CancelTarget(s.peer.slots)
      case None => None
      case Some(Own(h)) => Some(Peers(h))
      case Some(Peers(h)) => Some(Own(h))
  }

  function CancelPicked(r: Record, owner: bool): Record {
    var o, t := r.owner, r.taker;
    if owner then
      if o.canceled then r else Record(o.(canceled := true, cancelsOwed := o.cancelsOwed + 1, armed := o.armed || t.accepted), t)
    else if t.requested then r
    else Record(o, t.(requested := true, requestsOwed := t.requestsOwed + 1))
  }

  function Next(files: Offered -> nat, s: System, a: Action): System {
    if s.broken then s
    else
      match a
      case NewOffer(z) =>
        if RecordOf(s, z).owner.phase != Absent || !Takes(OwnerSlots(s, z)) then s
        else Apply(s, z, AtOwner(Submitted(RecordOf(s, z), files(z)), SubmitOp(z.handle)))
      case OfferMove(z, move) =>
        var r := RecordOf(s, z);
        if !CanMove(files(z), r, PlacesOf(s, z), move) then s else Apply(s, z, Moved(z, r, move))
      case CancelCommand(atCoordinator) =>
        (match Picked(s, atCoordinator)
         case None => s
         case Some(z) => Apply(s, z, Just(CancelPicked(RecordOf(s, z), atCoordinator == z.Own?))))
      case DeliverToPeer =>
        if s.toPeer == [] || !CanDeliver(s, s.toPeer[0], false) then s
        else Apply(s.(toPeer := s.toPeer[1..]), s.toPeer[0].offer, Arrived(s, s.toPeer[0], false))
      case DeliverToCoordinator =>
        if s.toCoordinator == [] || !CanDeliver(s, s.toCoordinator[0], true) then s
        else Apply(s.(toCoordinator := s.toCoordinator[1..]), s.toCoordinator[0].offer, Arrived(s, s.toCoordinator[0], true))
  }

  function Start(): System { System(Run(NoOffers(Inbound), [], [], 0), Run(NoOffers(Outbound), [], [], 0), map[], [], [], false) }

  function After(files: Offered -> nat, s: System, actions: seq<Action>): System
    decreases |actions|
  {
    if actions == [] then s else After(files, Next(files, s, actions[0]), actions[1..])
  }

  // ---- one offer's frames ----

  function Of(wire: seq<Sent>, z: Offered): seq<Frame> {
    if wire == [] then []
    else (if wire[0].offer == z then [wire[0].frame] else []) + Of(wire[1..], z)
  }

  function Plus(frames: seq<Frame>, more: Option<Frame>): seq<Frame> {
    if more.Some? then frames + [more.value] else frames
  }

  lemma {:induction false} OfPush(wire: seq<Sent>, sent: Sent, w: Offered)
    ensures Of(wire + [sent], w) == Of(wire, w) + (if sent.offer == w then [sent.frame] else [])
  {
    if wire == [] {
      assert wire + [sent] == [sent] && [sent][1..] == [];
    } else {
      OfPush(wire[1..], sent, w);
      assert wire + [sent] == [wire[0]] + (wire[1..] + [sent]);
      OfFirst(wire[0], wire[1..] + [sent], w);
      OfFirst(wire[0], wire[1..], w);
      assert wire == [wire[0]] + wire[1..];
    }
  }

  lemma OfFirst(first: Sent, rest: seq<Sent>, w: Offered)
    ensures Of([first] + rest, w) == (if first.offer == w then [first.frame] else []) + Of(rest, w)
  {
    assert ([first] + rest)[1..] == rest;
  }

  lemma OfAppend(wire: seq<Sent>, z: Offered, frame: Option<Frame>, w: Offered)
    ensures Of(wire + Tagged(z, frame), w) == if w == z then Plus(Of(wire, w), frame) else Of(wire, w)
  {
    hide Of;
    if frame.Some? {
      OfPush(wire, Sent(z, frame.value), w);
    } else {
      assert wire + Tagged(z, frame) == wire;
    }
  }

  function Forth(s: System, z: Offered): seq<Frame> { Of(if z.Own? then s.toPeer else s.toCoordinator, z) }

  function Back(s: System, z: Offered): seq<Frame> { Of(if z.Own? then s.toCoordinator else s.toPeer, z) }

  // ---- what holds of one offer ----

  predicate Fenced(frame: Frame) { frame.Content? || (frame.Terminal? && frame.complete) }

  predicate OfFile(frame: Frame) { frame.Content? || frame.Terminal? }

  ghost predicate NoneFenced(forth: seq<Frame>) { forall i | 0 <= i < |forth| :: !Fenced(forth[i]) }

  function FileResults(frames: seq<Frame>): nat {
    if frames == [] then 0 else (if frames[0].FileResult? then 1 else 0) + FileResults(frames[1..])
  }

  function Terminals(frames: seq<Frame>): nat {
    if frames == [] then 0 else (if frames[0].Terminal? then 1 else 0) + Terminals(frames[1..])
  }

  /** Before it runs an offer has sent its manifest and cancel frames at most. */
  ghost predicate Quiet(r: Record, forth: seq<Frame>, back: seq<Frame>) {
    && (forall i | 0 <= i < |forth| :: forth[i].Manifest? || forth[i].CancelFrame?)
    && r.owner.got == 0 && FileResults(r.owner.inbox) == 0 && FileResults(back) == 0
  }

  /** The manifest is the first the receiver learns of an offer, and comes once. */
  ghost predicate Introduced(r: Record, forth: seq<Frame>) {
    && (r.owner.phase.Absent? || r.owner.phase.Created? ==> r.taker.status.Unseen?)
    && (forall i | 0 <= i < |forth| && forth[i].Manifest? :: r.taker.status.Unseen? && !r.owner.phase.Absent? && !r.owner.phase.Created?)
    && (forall i, j | 0 <= i < j < |forth| && forth[i].Manifest? :: !forth[j].Manifest?)
  }

  /** No acceptance without the receiver's. */
  ghost predicate Consented(r: Record, back: seq<Frame>) {
    && (r.taker.decisionOwed || r.owner.decision == Some(true) || r.owner.phase.Running? || r.owner.phase.Finishing? ==> r.taker.accepted)
    && (forall i | 0 <= i < |back| && back[i] == Decision(true) :: r.taker.accepted)
    && (r.taker.status.Accepted? ==> r.taker.accepted)
    && (r.taker.accepted ==> r.taker.status.Accepted? || r.taker.status.Closing? || r.taker.status.Closed?)
  }

  /** After a cancel frame no content and no completion, after the batch nothing of a file. */
  ghost predicate InOrder(r: Record, forth: seq<Frame>) {
    && (forall i | 0 <= i < |forth| && forth[i].CancelFrame? :: r.owner.canceled)
    && (r.owner.cancelsOwed > 0 ==> r.owner.canceled)
    && (forall i | 0 <= i < |forth| && forth[i].Batch? :: r.owner.phase.Finishing? || r.owner.phase.Gone?)
    && (forall i, j | 0 <= i < j < |forth| && forth[i].CancelFrame? :: !Fenced(forth[j]))
    && (forall i, j | 0 <= i < j < |forth| && forth[i].Batch? :: !OfFile(forth[j]))
  }

  /** An accepted offer that its receiver has closed is one whose owner has stopped. */
  ghost predicate ClosedWell(r: Record, forth: seq<Frame>) {
    r.taker.accepted && (r.taker.status.Closing? || r.taker.status.Closed?) ==>
      (r.owner.canceled || r.owner.phase.Finishing? || r.owner.phase.Gone?) && NoneFenced(forth)
  }

  ghost predicate IsAnswer(r: Record, frame: Frame) {
    && !Fenced(frame)
    && (frame.FinalResult? || frame.CancelResult? ==> r.taker.accepted && (r.taker.status.Closing? || r.taker.status.Closed?))
    && (frame.FinalResult? ==> r.owner.phase.Finishing? || r.owner.phase.Gone?)
  }

  ghost predicate Answered(r: Record, back: seq<Frame>) {
    && (forall i | 0 <= i < |back| :: IsAnswer(r, back[i]))
    && (forall i | 0 <= i < |r.owner.inbox| :: IsAnswer(r, r.owner.inbox[i]) && IsResult(r.owner.inbox[i]))
  }

  /** Every file is still to be ended, or its terminal frame or its result is under way,
      or its result has been counted. */
  ghost predicate Accounted(n: nat, r: Record, forth: seq<Frame>, back: seq<Frame>) {
    && (!r.owner.phase.Absent? && !r.owner.phase.Gone? ==>
          r.owner.got + FileResults(r.owner.inbox) + FileResults(back) + Terminals(forth) + |r.owner.left| == n)
    && (r.owner.phase.Finishing? ==> r.owner.got == n)
  }

  /** A chunk is followed by its file's terminal frame, unless that is still to come. */
  ghost predicate Followed(r: Record, forth: seq<Frame>) {
    !r.owner.phase.Gone? ==>
      forall i | 0 <= i < |forth| && forth[i].Content? :: forth[i].file in r.owner.left || EndsLater(forth, i, forth[i].file)
  }

  ghost predicate EndsLater(forth: seq<Frame>, i: nat, file: nat) {
    exists j :: i < j < |forth| && forth[j].Terminal? && forth[j].file == file
  }

  predicate Early(phase: Phase) { phase.Absent? || phase.Created? || phase.Waiting? }

  ghost predicate Edges(r: Record, forth: seq<Frame>, back: seq<Frame>) {
    && (Early(r.owner.phase) ==> Quiet(r, forth, back))
    && (r.owner.phase.Gone? ==> NoneFenced(forth))
  }

  ghost predicate OfferInv(n: nat, r: Record, forth: seq<Frame>, back: seq<Frame>) {
    && Edges(r, forth, back) && Introduced(r, forth) && Consented(r, back) && InOrder(r, forth) && ClosedWell(r, forth)
    && Answered(r, back) && Accounted(n, r, forth, back) && Followed(r, forth)
  }

  // ---- the steps of one offer ----

  lemma {:induction false} TerminalsAppend(frames: seq<Frame>, frame: Frame)
    ensures Terminals(frames + [frame]) == Terminals(frames) + (if frame.Terminal? then 1 else 0)
  {
    if frames == [] {
      assert frames + [frame] == [frame];
    } else {
      TerminalsAppend(frames[1..], frame);
      assert (frames + [frame])[1..] == frames[1..] + [frame];
    }
  }

  lemma {:induction false} FileResultsAppend(frames: seq<Frame>, frame: Frame)
    ensures FileResults(frames + [frame]) == FileResults(frames) + (if frame.FileResult? then 1 else 0)
  {
    if frames == [] {
      assert frames + [frame] == [frame];
    } else {
      FileResultsAppend(frames[1..], frame);
      assert (frames + [frame])[1..] == frames[1..] + [frame];
    }
  }

  lemma {:induction false} TerminalIsCounted(frames: seq<Frame>, j: nat)
    requires j < |frames| && frames[j].Terminal?
    ensures Terminals(frames) > 0
  {
    if j > 0 {
      TerminalIsCounted(frames[1..], j - 1);
    }
  }

  /** Once every result is in, nothing of a file is left on the wire. */
  lemma FinishedIsEmpty(n: nat, r: Record, forth: seq<Frame>, back: seq<Frame>)
    requires OfferInv(n, r, forth, back) && (r.owner.phase.Running? || r.owner.phase.Finishing?) && r.owner.got >= n
    ensures forall i | 0 <= i < |forth| :: !OfFile(forth[i])
    ensures FileResults(r.owner.inbox) == 0 && FileResults(back) == 0 && r.owner.left == {} && r.owner.got == n
  {
    forall i | 0 <= i < |forth| ensures !forth[i].Terminal? {
      if forth[i].Terminal? {
        TerminalIsCounted(forth, i);
      }
    }
  }

  lemma MoveKeepsEdges(z: Offered, n: nat, r: Record, p: Places, m: Move, forth: seq<Frame>, back: seq<Frame>)
    requires OfferInv(n, r, forth, back) && CanMove(n, r, p, m)
    ensures var e := Moved(z, r, m); Edges(e.record, Plus(forth, e.forth), Plus(back, e.back))
  {
    hide Introduced, Consented, InOrder, Accounted, Followed, Terminals, OfFile;
    var e := Moved(z, r, m);
    if e.back.Some? {
      FileResultsAppend(back, e.back.value);
    }
    if m.TakeResult? && r.owner.phase.Finishing? {
      FinishedIsUnfenced(n, r, forth, back);
    }
  }

  lemma FinishedIsUnfenced(n: nat, r: Record, forth: seq<Frame>, back: seq<Frame>)
    requires OfferInv(n, r, forth, back) && r.owner.phase.Finishing?
    ensures NoneFenced(forth)
  {
    FinishedIsEmpty(n, r, forth, back);
  }

  lemma MoveKeepsIntroduced(z: Offered, n: nat, r: Record, p: Places, m: Move, forth: seq<Frame>)
    requires Introduced(r, forth) && CanMove(n, r, p, m)
    ensures var e := Moved(z, r, m); Introduced(e.record, Plus(forth, e.forth))
  {
  }

  lemma MoveKeepsConsented(z: Offered, n: nat, r: Record, p: Places, m: Move, back: seq<Frame>)
    requires Consented(r, back) && CanMove(n, r, p, m)
    ensures var e := Moved(z, r, m); Consented(e.record, Plus(back, e.back))
  {
  }

  lemma MoveKeepsInOrder(z: Offered, n: nat, r: Record, p: Places, m: Move, forth: seq<Frame>)
    requires InOrder(r, forth) && CanMove(n, r, p, m)
    ensures var e := Moved(z, r, m); InOrder(e.record, Plus(forth, e.forth))
  {
  }

  lemma MoveKeepsClosedWell(z: Offered, n: nat, r: Record, p: Places, m: Move, forth: seq<Frame>, back: seq<Frame>)
    requires ClosedWell(r, forth) && Consented(r, back) && CanMove(n, r, p, m)
    ensures var e := Moved(z, r, m); ClosedWell(e.record, Plus(forth, e.forth))
  {
  }

  lemma MoveKeepsAnswered(z: Offered, n: nat, r: Record, p: Places, m: Move, back: seq<Frame>)
    requires Answered(r, back) && Consented(r, back) && CanMove(n, r, p, m)
    ensures var e := Moved(z, r, m); Answered(e.record, Plus(back, e.back))
  {
  }

  lemma MoveKeepsAccounted(z: Offered, n: nat, r: Record, p: Places, m: Move, forth: seq<Frame>, back: seq<Frame>)
    requires OfferInv(n, r, forth, back) && CanMove(n, r, p, m)
    ensures var e := Moved(z, r, m); Accounted(n, e.record, Plus(forth, e.forth), Plus(back, e.back))
  {
    hide Introduced, Consented, InOrder, Followed, NoneFenced, ClosedWell;
    var e := Moved(z, r, m);
    if e.forth.Some? {
      TerminalsAppend(forth, e.forth.value);
    }
    if e.back.Some? {
      FileResultsAppend(back, e.back.value);
    }
    if m.SendBatch? {
      GotAll(n, r, forth, back);
    }
  }

  lemma GotAll(n: nat, r: Record, forth: seq<Frame>, back: seq<Frame>)
    requires OfferInv(n, r, forth, back) && r.owner.phase.Running? && r.owner.got >= n
    ensures r.owner.got == n
  {
    FinishedIsEmpty(n, r, forth, back);
  }

  lemma MoveKeepsFollowed(z: Offered, n: nat, r: Record, p: Places, m: Move, forth: seq<Frame>)
    requires Followed(r, forth) && CanMove(n, r, p, m)
    ensures var e := Moved(z, r, m); Followed(e.record, Plus(forth, e.forth))
  {
    var e := Moved(z, r, m);
    var forth' := Plus(forth, e.forth);
    forall i | 0 <= i < |forth'| && forth'[i].Content? && !e.record.owner.phase.Gone?
      ensures forth'[i].file in e.record.owner.left || EndsLater(forth', i, forth'[i].file)
    {
      if i < |forth| {
        if m.SendTerminal? && forth[i].file == m.file {
          assert forth'[|forth|].Terminal?;
        } else if forth[i].file !in r.owner.left {
          assert EndsLater(forth, i, forth[i].file);
          var j :| i < j < |forth| && forth[j].Terminal? && forth[j].file == forth[i].file;
          assert forth'[j].Terminal?;
        }
      }
    }
  }

  lemma MoveKeepsOffer(z: Offered, n: nat, r: Record, p: Places, m: Move, forth: seq<Frame>, back: seq<Frame>)
    requires OfferInv(n, r, forth, back) && CanMove(n, r, p, m)
    ensures var e := Moved(z, r, m); !e.broken && OfferInv(n, e.record, Plus(forth, e.forth), Plus(back, e.back))
  {
    hide Quiet, NoneFenced, Introduced, Consented, InOrder, ClosedWell, Answered, Accounted, Followed, CanMove, Plus;
    MoveKeepsEdges(z, n, r, p, m, forth, back);
    MoveKeepsIntroduced(z, n, r, p, m, forth);
    MoveKeepsConsented(z, n, r, p, m, back);
    MoveKeepsInOrder(z, n, r, p, m, forth);
    MoveKeepsClosedWell(z, n, r, p, m, forth, back);
    MoveKeepsAnswered(z, n, r, p, m, back);
    MoveKeepsAccounted(z, n, r, p, m, forth, back);
    MoveKeepsFollowed(z, n, r, p, m, forth);
  }

  // ---- a frame reaches the receiver ----

  lemma HeardKeepsEdges(z: Offered, n: nat, r: Record, p: Places, room: bool, overlap: bool, forth: seq<Frame>, back: seq<Frame>)
    requires Edges(r, forth, back) && forth != []
    ensures var e := Heard(z, r, p, forth[0], room, overlap);
            !e.broken ==> Edges(e.record, forth[1..], Plus(back, e.back))
  {
    var e := Heard(z, r, p, forth[0], room, overlap);
    if e.back.Some? {
      FileResultsAppend(back, e.back.value);
    }
    assert forall i | 0 <= i < |forth| - 1 :: forth[1..][i] == forth[i + 1];
  }

  lemma HeardKeepsIntroduced(z: Offered, r: Record, p: Places, room: bool, overlap: bool, forth: seq<Frame>)
    requires Introduced(r, forth) && forth != []
    ensures var e := Heard(z, r, p, forth[0], room, overlap); !e.broken ==> Introduced(e.record, forth[1..])
  {
    assert forall i | 0 <= i < |forth| - 1 :: forth[1..][i] == forth[i + 1];
  }

  lemma HeardKeepsConsented(z: Offered, r: Record, p: Places, room: bool, overlap: bool, forth: seq<Frame>, back: seq<Frame>)
    requires Consented(r, back) && Introduced(r, forth) && forth != []
    ensures var e := Heard(z, r, p, forth[0], room, overlap); !e.broken ==> Consented(e.record, Plus(back, e.back))
  {
  }

  lemma HeardKeepsInOrder(z: Offered, r: Record, p: Places, room: bool, overlap: bool, forth: seq<Frame>)
    requires InOrder(r, forth) && forth != []
    ensures var e := Heard(z, r, p, forth[0], room, overlap); !e.broken ==> InOrder(e.record, forth[1..])
  {
    assert forall i | 0 <= i < |forth| - 1 :: forth[1..][i] == forth[i + 1];
  }

  /** Where the receiver closes: behind a cancel frame or the batch nothing fenced is left. */
  lemma HeardKeepsClosedWell(z: Offered, r: Record, p: Places, room: bool, overlap: bool, forth: seq<Frame>, back: seq<Frame>)
    requires InOrder(r, forth) && ClosedWell(r, forth) && Consented(r, back) && Introduced(r, forth) && forth != []
    ensures var e := Heard(z, r, p, forth[0], room, overlap); !e.broken ==> ClosedWell(e.record, forth[1..])
  {
    assert forall i | 0 <= i < |forth| - 1 :: forth[1..][i] == forth[i + 1];
  }

  lemma HeardKeepsAnswered(z: Offered, r: Record, p: Places, room: bool, overlap: bool, forth: seq<Frame>, back: seq<Frame>)
    requires Answered(r, back) && InOrder(r, forth) && Consented(r, back) && Introduced(r, forth) && forth != []
    ensures var e := Heard(z, r, p, forth[0], room, overlap); !e.broken ==> Answered(e.record, Plus(back, e.back))
  {
  }

  lemma HeardKeepsAccounted(z: Offered, n: nat, r: Record, p: Places, room: bool, overlap: bool, forth: seq<Frame>, back: seq<Frame>)
    requires Accounted(n, r, forth, back) && forth != []
    ensures var e := Heard(z, r, p, forth[0], room, overlap); !e.broken ==> Accounted(n, e.record, forth[1..], Plus(back, e.back))
  {
    hide Terminals, FileResults;
    var e := Heard(z, r, p, forth[0], room, overlap);
    HeadCounts(forth);
    if e.back.Some? {
      FileResultsAppend(back, e.back.value);
    }
  }

  lemma HeadCounts(frames: seq<Frame>)
    requires frames != []
    ensures Terminals(frames) == Terminals(frames[1..]) + (if frames[0].Terminal? then 1 else 0)
    ensures FileResults(frames) == FileResults(frames[1..]) + (if frames[0].FileResult? then 1 else 0)
  {
  }

  /** The owner's part of a record. */
  ghost predicate SameOwner(r: Record, r': Record) { r'.owner.phase == r.owner.phase && r'.owner.left == r.owner.left }

  lemma ShorterKeepsFollowed(r: Record, r': Record, forth: seq<Frame>)
    requires Followed(r, forth) && forth != [] && SameOwner(r, r')
    ensures Followed(r', forth[1..])
  {
    var rest := forth[1..];
    forall i | 0 <= i < |rest| && rest[i].Content? && !r'.owner.phase.Gone?
      ensures rest[i].file in r'.owner.left || EndsLater(rest, i, rest[i].file)
    {
      assert rest[i] == forth[i + 1];
      if rest[i].file !in r.owner.left {
        assert EndsLater(forth, i + 1, rest[i].file);
        var j :| i + 1 < j < |forth| && forth[j].Terminal? && forth[j].file == rest[i].file;
        assert rest[j - 1].Terminal?;
      }
    }
  }

  lemma HeardKeepsOffer(z: Offered, n: nat, r: Record, p: Places, room: bool, overlap: bool, forth: seq<Frame>, back: seq<Frame>)
    requires OfferInv(n, r, forth, back) && forth != []
    ensures var e := Heard(z, r, p, forth[0], room, overlap);
            !e.broken ==> OfferInv(n, e.record, Plus(forth[1..], e.forth), Plus(back, e.back))
  {
    hide Edges, Introduced, Consented, InOrder, ClosedWell, Answered, Accounted, Followed;
    var e := Heard(z, r, p, forth[0], room, overlap);
    HeardKeepsEdges(z, n, r, p, room, overlap, forth, back);
    HeardKeepsIntroduced(z, r, p, room, overlap, forth);
    HeardKeepsConsented(z, r, p, room, overlap, forth, back);
    HeardKeepsInOrder(z, r, p, room, overlap, forth);
    HeardKeepsClosedWell(z, r, p, room, overlap, forth, back);
    HeardKeepsAnswered(z, r, p, room, overlap, forth, back);
    HeardKeepsAccounted(z, n, r, p, room, overlap, forth, back);
    ShorterKeepsFollowed(r, e.record, forth);
  }

  // ---- a frame reaches the owner ----

  lemma HeededKeepsEdges(r: Record, p: Places, forth: seq<Frame>, back: seq<Frame>)
    requires Edges(r, forth, back) && back != []
    ensures var e := Heeded(r, p, back[0]); !e.broken ==> Edges(e.record, forth, back[1..])
  {
    hide Terminals, FileResults, NoneFenced;
    HeadCounts(back);
    FileResultsAppend(r.owner.inbox, back[0]);
  }

  lemma HeededKeepsAccounted(n: nat, r: Record, p: Places, forth: seq<Frame>, back: seq<Frame>)
    requires Accounted(n, r, forth, back) && back != []
    ensures var e := Heeded(r, p, back[0]); !e.broken ==> Accounted(n, e.record, forth, back[1..])
  {
    hide Terminals, FileResults;
    HeadCounts(back);
    FileResultsAppend(r.owner.inbox, back[0]);
  }

  lemma HeededKeepsConsented(r: Record, p: Places, back: seq<Frame>)
    requires Consented(r, back) && back != []
    ensures var e := Heeded(r, p, back[0]); !e.broken ==> Consented(e.record, back[1..])
  {
    assert forall i | 0 <= i < |back| - 1 :: back[1..][i] == back[i + 1];
  }

  lemma HeededKeepsAnswered(r: Record, p: Places, back: seq<Frame>)
    requires Answered(r, back) && back != []
    ensures var e := Heeded(r, p, back[0]); !e.broken ==> Answered(e.record, back[1..])
  {
    assert forall i | 0 <= i < |back| - 1 :: back[1..][i] == back[i + 1];
  }

  lemma HeededKeepsForth(n: nat, r: Record, p: Places, forth: seq<Frame>, frame: Frame)
    requires Introduced(r, forth) && InOrder(r, forth) && ClosedWell(r, forth) && Followed(r, forth)
    ensures var e := Heeded(r, p, frame);
            !e.broken ==> Introduced(e.record, forth) && InOrder(e.record, forth) && ClosedWell(e.record, forth) && Followed(e.record, forth)
  {
    hide EndsLater, NoneFenced;
  }

  lemma HeededKeepsOffer(n: nat, r: Record, p: Places, forth: seq<Frame>, back: seq<Frame>)
    requires OfferInv(n, r, forth, back) && back != []
    ensures var e := Heeded(r, p, back[0]);
            !e.broken ==> OfferInv(n, e.record, Plus(forth, e.forth), Plus(back[1..], e.back))
  {
    hide Edges, Introduced, Consented, InOrder, ClosedWell, Answered, Accounted, Followed;
    HeededKeepsEdges(r, p, forth, back);
    HeededKeepsAccounted(n, r, p, forth, back);
    HeededKeepsConsented(r, p, back);
    HeededKeepsAnswered(r, p, back);
    HeededKeepsForth(n, r, p, forth, back[0]);
  }

  // ---- the slots ----

  lemma RunHasSlots(run: Run, op: Option<Op>)
    requires op != Some(CancelOp)
    ensures RunAfter(run, op).slots == SlotsAfter(run.slots, op)
  {
  }

  lemma SlotsKeepOneSlot(slots: Slots, op: Option<Op>)
    requires OneSlot(slots)
    ensures OneSlot(SlotsAfter(slots, op)) && SlotsAfter(slots, op).role == slots.role
  {
  }

  /** Only its own end takes an offer out of its slot. */
  lemma SlotsKeepOffer(slots: Slots, op: Option<Op>, o: Offered)
    requires OneSlot(slots) && InSlot(slots, o) && op != Some(ClearOp(o))
    ensures InSlot(SlotsAfter(slots, op), o)
  {
  }

  ghost predicate Placed(z: Offered, r: Record, own: Slots, other: Slots) {
    && (r.owner.phase.Running? || r.owner.phase.Finishing? ==> InSlot(own, Own(z.handle)))
    && (r.taker.status.Accepted? || r.taker.status.Closing? ==> InSlot(other, Peers(z.handle)))
  }

  // ---- the invariant of the system ----

  ghost predicate OfferHolds(files: Offered -> nat, s: System, z: Offered) {
    && OfferInv(files(z), RecordOf(s, z), Forth(s, z), Back(s, z))
    && Placed(z, RecordOf(s, z), OwnerSlots(s, z), ReceiverSlots(s, z))
  }

  ghost predicate Roles(s: System) {
    s.coordinator.slots.role == Inbound && s.peer.slots.role == Outbound && OneSlot(s.coordinator.slots)
  }

  ghost predicate Inv(files: Offered -> nat, s: System) {
    !s.broken ==> Roles(s) && forall z :: OfferHolds(files, s, z)
  }

  /** One offer's effects are applied; `t` is `s` with at most one of its frames taken off. */
  lemma ApplyKeepsInv(files: Offered -> nat, s: System, t: System, z: Offered, e: Effects)
    requires Inv(files, s) && !s.broken && !e.broken && !t.broken
    requires t.offers == s.offers && t.coordinator == s.coordinator && t.peer == s.peer
    requires forall w | w != z :: Of(t.toPeer, w) == Of(s.toPeer, w) && Of(t.toCoordinator, w) == Of(s.toCoordinator, w)
    requires OfferInv(files(z), e.record, Plus(Forth(t, z), e.forth), Plus(Back(t, z), e.back))
    requires Placed(z, e.record, SlotsAfter(OwnerSlots(s, z), e.owner), SlotsAfter(ReceiverSlots(s, z), e.receiver))
    requires e.owner.Some? && e.owner.value.ClearOp? ==> e.owner.value.o == Own(z.handle)
    requires e.receiver.Some? && e.receiver.value.ClearOp? ==> e.receiver.value.o == Peers(z.handle)
    requires e.owner != Some(CancelOp) && e.receiver != Some(CancelOp)
    ensures Inv(files, Apply(t, z, e))
  {
    hide OfferInv, SlotsAfter, RunAfter, OneSlot, InSlot, Of, Plus;
    var s' := Apply(t, z, e);
    RunHasSlots(s.coordinator, if z.Own? then e.owner else e.receiver);
    RunHasSlots(s.peer, if z.Own? then e.receiver else e.owner);
    SlotsKeepOneSlot(s.coordinator.slots, if z.Own? then e.owner else e.receiver);
    PeerHasOneSlot(s);
    SlotsKeepOneSlot(s.peer.slots, if z.Own? then e.receiver else e.owner);
    forall w ensures OfferHolds(files, s', w) {
      OfAppend(t.toPeer, z, if z.Own? then e.forth else e.back, w);
      OfAppend(t.toCoordinator, z, if z.Own? then e.back else e.forth, w);
      assert OfferHolds(files, s, w);
      if w != z {
        OtherIsKept(s, w, z, e);
        assert RecordOf(s', w) == RecordOf(s, w);
      } else {
        assert RecordOf(s', z) == e.record;
      }
    }
  }

  lemma PeerHasOneSlot(s: System)
    requires Roles(s)
    ensures OneSlot(s.peer.slots)
  {
  }

  lemma OtherIsKept(s: System, w: Offered, z: Offered, e: Effects)
    requires Roles(s) && w != z && Placed(w, RecordOf(s, w), OwnerSlots(s, w), ReceiverSlots(s, w))
    requires e.owner.Some? && e.owner.value.ClearOp? ==> e.owner.value.o == Own(z.handle)
    requires e.receiver.Some? && e.receiver.value.ClearOp? ==> e.receiver.value.o == Peers(z.handle)
    ensures var coordinator := SlotsAfter(s.coordinator.slots, if z.Own? then e.owner else e.receiver);
            var peer := SlotsAfter(s.peer.slots, if z.Own? then e.receiver else e.owner);
            Placed(w, RecordOf(s, w), if w.Own? then coordinator else peer, if w.Own? then peer else coordinator)
  {
    hide SlotsAfter, InSlot;
    var r := RecordOf(s, w);
    PeerHasOneSlot(s);
    if r.owner.phase.Running? || r.owner.phase.Finishing? {
      SlotsKeepOffer(OwnerSlots(s, w), if w.Own? == z.Own? then e.owner else e.receiver, Own(w.handle));
    }
    if r.taker.status.Accepted? || r.taker.status.Closing? {
      SlotsKeepOffer(ReceiverSlots(s, w), if w.Own? == z.Own? then e.receiver else e.owner, Peers(w.handle));
    }
  }

  // ---- the actions ----

  lemma NewOfferKeepsInv(files: Offered -> nat, s: System, z: Offered)
    requires Inv(files, s) && !s.broken && RecordOf(s, z).owner.phase.Absent?
    ensures Inv(files, Apply(s, z, AtOwner(Submitted(RecordOf(s, z), files(z)), SubmitOp(z.handle))))
  {
    hide Of, OneSlot;
    var r := RecordOf(s, z);
    assert OfferHolds(files, s, z);
    SubmittedOffer(files(z), r, Forth(s, z), Back(s, z));
    assert !r.taker.status.Accepted? && !r.taker.status.Closing?;
    ApplyKeepsInv(files, s, s, z, AtOwner(Submitted(r, files(z)), SubmitOp(z.handle)));
  }

  lemma SubmittedOffer(n: nat, r: Record, forth: seq<Frame>, back: seq<Frame>)
    requires OfferInv(n, r, forth, back) && r.owner.phase.Absent?
    ensures OfferInv(n, Submitted(r, n), forth, back)
  {
    hide FilesBelow, Terminals, FileResults;
    NoTerminals(forth);
  }

  lemma {:induction false} NoTerminals(forth: seq<Frame>)
    requires forall i | 0 <= i < |forth| :: !forth[i].Terminal?
    ensures Terminals(forth) == 0
  {
    if forth != [] {
      assert forall i | 0 <= i < |forth| - 1 :: forth[1..][i] == forth[i + 1];
      NoTerminals(forth[1..]);
    }
  }

  lemma MoveKeepsInv(files: Offered -> nat, s: System, z: Offered, m: Move)
    requires Inv(files, s) && !s.broken && CanMove(files(z), RecordOf(s, z), PlacesOf(s, z), m)
    ensures Inv(files, Apply(s, z, Moved(z, RecordOf(s, z), m)))
  {
    hide OfferInv, Of, Inv, OneSlot, Plus;
    var r := RecordOf(s, z);
    InvHolds(files, s, z);
    MoveKeepsOffer(z, files(z), r, PlacesOf(s, z), m, Forth(s, z), Back(s, z));
    MoveKeepsPlaced(s, z, files(z), m);
    ApplyKeepsInv(files, s, s, z, Moved(z, r, m));
  }

  lemma InvHolds(files: Offered -> nat, s: System, z: Offered)
    requires Inv(files, s) && !s.broken
    ensures OfferHolds(files, s, z) && Roles(s)
  {
  }

  lemma MoveKeepsPlaced(s: System, z: Offered, n: nat, m: Move)
    requires Roles(s) && Placed(z, RecordOf(s, z), OwnerSlots(s, z), ReceiverSlots(s, z))
    requires CanMove(n, RecordOf(s, z), PlacesOf(s, z), m)
    ensures var e := Moved(z, RecordOf(s, z), m);
            && Placed(z, e.record, SlotsAfter(OwnerSlots(s, z), e.owner), SlotsAfter(ReceiverSlots(s, z), e.receiver))
            && (e.owner.Some? && e.owner.value.ClearOp? ==> e.owner.value.o == Own(z.handle))
            && (e.receiver.Some? && e.receiver.value.ClearOp? ==> e.receiver.value.o == Peers(z.handle))
            && e.owner != Some(CancelOp) && e.receiver != Some(CancelOp)
  {
    hide Clear, TakeCoordinatorOffer, TakeNextOutgoing;
  }

  lemma CancelKeepsInv(files: Offered -> nat, s: System, z: Offered, owner: bool)
    requires Inv(files, s) && !s.broken
    ensures Inv(files, Apply(s, z, Just(CancelPicked(RecordOf(s, z), owner))))
  {
    hide Of, OneSlot, InSlot, Inv;
    var r := RecordOf(s, z);
    InvHolds(files, s, z);
    CanceledOffer(files(z), r, Forth(s, z), Back(s, z), owner);
    ApplyKeepsInv(files, s, s, z, Just(CancelPicked(r, owner)));
  }

  lemma CanceledOffer(n: nat, r: Record, forth: seq<Frame>, back: seq<Frame>, owner: bool)
    requires OfferInv(n, r, forth, back)
    ensures OfferInv(n, CancelPicked(r, owner), forth, back)
  {
    hide NoneFenced, EndsLater, Terminals, FileResults;
  }

  /** `t` is `s` after a frame has been taken off one of the wires. */
  ghost predicate Taken(s: System, t: System, toCoordinator: bool) {
    if toCoordinator then s.toCoordinator != [] && t == s.(toCoordinator := s.toCoordinator[1..])
    else s.toPeer != [] && t == s.(toPeer := s.toPeer[1..])
  }

  function Head(s: System, toCoordinator: bool): Sent
    requires if toCoordinator then s.toCoordinator != [] else s.toPeer != []
  {
    if toCoordinator then s.toCoordinator[0] else s.toPeer[0]
  }

  lemma TakenFrames(s: System, t: System, toCoordinator: bool)
    requires Taken(s, t, toCoordinator)
    ensures var sent := Head(s, toCoordinator);
            && (forall w | w != sent.offer :: Of(t.toPeer, w) == Of(s.toPeer, w) && Of(t.toCoordinator, w) == Of(s.toCoordinator, w))
            && (if GoesToOwner(toCoordinator, sent.offer) then
                  Back(s, sent.offer) == [sent.frame] + Back(t, sent.offer) && Forth(t, sent.offer) == Forth(s, sent.offer)
                else Forth(s, sent.offer) == [sent.frame] + Forth(t, sent.offer) && Back(t, sent.offer) == Back(s, sent.offer))
  {
  }

  lemma DeliverKeepsInv(files: Offered -> nat, s: System, t: System, toCoordinator: bool)
    requires Inv(files, s) && !s.broken && Taken(s, t, toCoordinator)
    ensures var sent := Head(s, toCoordinator); Inv(files, Apply(t, sent.offer, Arrived(t, sent, toCoordinator)))
  {
    hide Of, Inv, OfferInv, OneSlot, Heard, Heeded, Plus, SlotsAfter;
    var sent := Head(s, toCoordinator);
    var z, e := sent.offer, Arrived(t, sent, toCoordinator);
    InvHolds(files, s, z);
    TakenFrames(s, t, toCoordinator);
    if e.broken {
      BrokenIsInv(files, Apply(t, z, e));
    } else {
      var r, p := RecordOf(s, z), PlacesOf(s, z);
      if GoesToOwner(toCoordinator, z) {
        assert Back(s, z)[1..] == Back(t, z) && Back(s, z)[0] == sent.frame;
        HeededKeepsOffer(files(z), r, p, Forth(s, z), Back(s, z));
        HeededKeepsPlaced(z, r, p, sent.frame, OwnerSlots(s, z), ReceiverSlots(s, z));
      } else {
        var slots := ReceiverSlots(s, z);
        var room, overlap := slots.role == Outbound || |slots.coordinatorQueue| < MAX_QUEUED_OFFERS,
                             slots.role == Outbound && slots.incoming != None;
        assert Forth(s, z)[1..] == Forth(t, z) && Forth(s, z)[0] == sent.frame;
        HeardKeepsOffer(z, files(z), r, p, room, overlap, Forth(s, z), Back(s, z));
        HeardKeepsPlaced(z, r, p, sent.frame, room, overlap, OwnerSlots(s, z), ReceiverSlots(s, z));
      }
      ApplyKeepsInv(files, s, t, z, e);
    }
  }

  lemma BrokenIsInv(files: Offered -> nat, s: System)
    requires s.broken
    ensures Inv(files, s)
  {
  }

  lemma HeededKeepsPlaced(z: Offered, r: Record, p: Places, frame: Frame, own: Slots, other: Slots)
    requires Placed(z, r, own, other) && !Heeded(r, p, frame).broken
    ensures var e := Heeded(r, p, frame);
            && Placed(z, e.record, SlotsAfter(own, e.owner), SlotsAfter(other, e.receiver))
            && e.owner == None && e.receiver == None
  {
  }

  lemma HeardKeepsPlaced(z: Offered, r: Record, p: Places, frame: Frame, room: bool, overlap: bool, own: Slots, other: Slots)
    requires Placed(z, r, own, other) && !Heard(z, r, p, frame, room, overlap).broken
    ensures var e := Heard(z, r, p, frame, room, overlap);
            && Placed(z, e.record, SlotsAfter(own, e.owner), SlotsAfter(other, e.receiver))
            && e.owner == None && (e.receiver.Some? ==> e.receiver.value.ReceiveOp?)
  {
    hide Receive;
  }

  lemma NextKeepsInv(files: Offered -> nat, s: System, a: Action)
    requires Inv(files, s)
    ensures Inv(files, Next(files, s, a))
  {
    hide Inv, Apply, Moved, Arrived, CanMove, Picked, RecordOf;
    if !s.broken {
      match a
      case NewOffer(z) =>
        if RecordOf(s, z).owner.phase.Absent? {
          NewOfferKeepsInv(files, s, z);
        }
      case OfferMove(z, m) =>
        if CanMove(files(z), RecordOf(s, z), PlacesOf(s, z), m) {
          MoveKeepsInv(files, s, z, m);
        }
      case CancelCommand(atCoordinator) =>
        var picked := Picked(s, atCoordinator);
        if picked.Some? {
          CancelKeepsInv(files, s, picked.value, atCoordinator == picked.value.Own?);
        }
      case DeliverToPeer =>
        if s.toPeer != [] {
          ArrivedIgnoresWire(s, s.(toPeer := s.toPeer[1..]), s.toPeer[0], false);
          DeliverKeepsInv(files, s, s.(toPeer := s.toPeer[1..]), false);
        }
      case DeliverToCoordinator =>
        if s.toCoordinator != [] {
          ArrivedIgnoresWire(s, s.(toCoordinator := s.toCoordinator[1..]), s.toCoordinator[0], true);
          DeliverKeepsInv(files, s, s.(toCoordinator := s.toCoordinator[1..]), true);
        }
    }
  }

  lemma ArrivedIgnoresWire(s: System, t: System, sent: Sent, toCoordinator: bool)
    requires t.offers == s.offers && t.coordinator == s.coordinator && t.peer == s.peer
    ensures Arrived(t, sent, toCoordinator) == Arrived(s, sent, toCoordinator)
  {
  }

  lemma {:induction false} RunKeepsInv(files: Offered -> nat, s: System, actions: seq<Action>)
    requires Inv(files, s)
    ensures Inv(files, After(files, s, actions))
    decreases |actions|
  {
    hide Inv, Next;
    if actions != [] {
      NextKeepsInv(files, s, actions[0]);
      RunKeepsInv(files, Next(files, s, actions[0]), actions[1..]);
    }
  }

  lemma StartHasInv(files: Offered -> nat)
    ensures Inv(files, Start())
  {
    forall z ensures OfferHolds(files, Start(), z) {
      assert RecordOf(Start(), z) == FRESH && Forth(Start(), z) == [] && Back(Start(), z) == [];
    }
  }

  // ---- the main results ----

  lemma {:induction false} SentIsInProjection(wire: seq<Sent>, k: nat) returns (i: nat)
    requires k < |wire|
    ensures i < |Of(wire, wire[k].offer)| && Of(wire, wire[k].offer)[i] == wire[k].frame
  {
    if k == 0 {
      i := 0;
    } else {
      var rest := SentIsInProjection(wire[1..], k - 1);
      i := if wire[0].offer == wire[k].offer then rest + 1 else rest;
    }
  }

  /** An offer with content on its way is running, accepted, and in both peers' slots. */
  lemma FencedFrameOfOffer(files: Offered -> nat, s: System, z: Offered, i: nat)
    requires Inv(files, s) && !s.broken && i < |Forth(s, z)| && Fenced(Forth(s, z)[i])
    ensures RecordOf(s, z).owner.phase.Running? && RecordOf(s, z).taker.status.Accepted?
    ensures InSlot(OwnerSlots(s, z), Own(z.handle)) && InSlot(ReceiverSlots(s, z), Peers(z.handle))
  {
    hide Of, InSlot;
    assert OfferHolds(files, s, z);
    if RecordOf(s, z).owner.phase.Finishing? {
      FinishedIsUnfenced(files(z), RecordOf(s, z), Forth(s, z), Back(s, z));
    }
  }

  function Wire(s: System, toCoordinator: bool): seq<Sent> { if toCoordinator then s.toCoordinator else s.toPeer }

  /** For every run of both peers, with queues, rejections and cancellations from either
      side, up to the first frame that ends the session: every content and every complete
      frame on its way, in either direction, belongs to the accepting peer's one active
      offer, travels away from that offer's owner, and finds its receiver ready for it. */
  lemma OneOfferAtATime(files: Offered -> nat, actions: seq<Action>, toCoordinator: bool, k: nat)
    requires var s := After(files, Start(), actions);
             !s.broken && k < |Wire(s, toCoordinator)| && Fenced(Wire(s, toCoordinator)[k].frame)
    ensures var s := After(files, Start(), actions);
            var z := Wire(s, toCoordinator)[k].offer;
            && Active(s.coordinator.slots) == Some(z)
            && !GoesToOwner(toCoordinator, z)
            && RecordOf(s, z).taker.status.Accepted? && PlacesOf(s, z).incoming
  {
    hide After, OfferInv, Of, Inv;
    var s := After(files, Start(), actions);
    StartHasInv(files);
    RunKeepsInv(files, Start(), actions);
    var z := Wire(s, toCoordinator)[k].offer;
    InvHolds(files, s, z);
    var i := SentIsInProjection(Wire(s, toCoordinator), k);
    if GoesToOwner(toCoordinator, z) {
      BackIsUnfenced(files, s, z, i);
    } else {
      FencedFrameOfOffer(files, s, z, i);
    }
  }

  lemma BackIsUnfenced(files: Offered -> nat, s: System, z: Offered, i: nat)
    requires OfferHolds(files, s, z) && i < |Back(s, z)|
    ensures !Fenced(Back(s, z)[i])
  {
    hide Of;
    assert IsAnswer(RecordOf(s, z), Back(s, z)[i]);
  }

  /** So no two offers ever have content under way together. */
  lemma NoTwoOffersInFlight(files: Offered -> nat, actions: seq<Action>, inward: bool, k: nat, outward: bool, l: nat)
    requires var s := After(files, Start(), actions);
             && !s.broken
             && k < |Wire(s, inward)| && Fenced(Wire(s, inward)[k].frame)
             && l < |Wire(s, outward)| && Fenced(Wire(s, outward)[l].frame)
    ensures var s := After(files, Start(), actions);
            Wire(s, inward)[k].offer == Wire(s, outward)[l].offer && inward == outward
  {
    hide After;
    OneOfferAtATime(files, actions, inward, k);
    OneOfferAtATime(files, actions, outward, l);
  }

  /** And the receiver never refuses a content or a complete frame. */
  lemma FencedFramesAreTaken(files: Offered -> nat, actions: seq<Action>, toCoordinator: bool)
    requires var s := After(files, Start(), actions);
             !s.broken && Wire(s, toCoordinator) != [] && Fenced(Wire(s, toCoordinator)[0].frame)
    ensures !Next(files, After(files, Start(), actions), if toCoordinator then DeliverToCoordinator else DeliverToPeer).broken
  {
    hide After, SlotsAfter;
    OneOfferAtATime(files, actions, toCoordinator, 0);
  }

  // ---- the statements are not empty ----

  /** One of the accepting peer's offers, alone and of one file, step by step. */
  function Story(z: Offered, step: nat): Action
    requires step < 8
  {
    match step
    case 0 => NewOffer(z)
    case 1 => OfferMove(z, SendManifest)
    case 2 => DeliverToPeer
    case 3 => OfferMove(z, Accept)
    case 4 => OfferMove(z, SendDecision)
    case 5 => DeliverToCoordinator
    case 6 => OfferMove(z, TakeDecision)
    case _ => OfferMove(z, SendContent(0))
  }

  function StoryRecord(step: nat): Record {
    var created, unseen := Submitted(FRESH, 1).owner, FRESH.taker;
    var waiting, accepted := created.(phase := Waiting), unseen.(status := Accepted, accepted := true);
    match step
    case 0 => FRESH
    case 1 => Record(created, unseen)
    case 2 => Record(waiting, unseen)
    case 3 => Record(waiting, unseen.(status := Pending))
    case 4 => Record(waiting, accepted.(decisionOwed := true))
    case 5 => Record(waiting, accepted)
    case 6 => Record(waiting.(decision := Some(true)), accepted)
    case _ => Record(waiting.(phase := Running), accepted)
  }

  function StoryState(z: Offered, step: nat): System {
    if step == 0 then Start()
    else
      var seen := if step >= 3 then [Peers(z.handle)] else [];
      System(Run(NoOffers(Inbound).(outgoing := Some(z.handle), coordinatorActive := true, transferring := if step >= 7 then Some(z) else None),
                 [z], [z], 0),
             Run(NoOffers(Outbound).(incoming := if step >= 3 then Some(z.handle) else None,
                                     transferring := if step >= 4 then Some(Peers(z.handle)) else None),
                 seen, seen, 0),
             map[z := StoryRecord(step)],
             if step == 2 then [Sent(z, Manifest)] else if step >= 8 then [Sent(z, Content(0))] else [],
             if step == 5 then [Sent(z, Decision(true))] else [],
             false)
  }

  lemma StoryOpens(files: Offered -> nat, z: Offered, step: nat)
    requires z.Own? && files(z) == 1 && step == 0
    ensures Next(files, StoryState(z, step), Story(z, step)) == StoryState(z, step + 1)
  {
    assert [] + [z] == [z] && [z][1..] == [];
  }

  lemma StoryIsSent(files: Offered -> nat, z: Offered, step: nat)
    requires z.Own? && files(z) == 1 && step == 1
    ensures Next(files, StoryState(z, step), Story(z, step)) == StoryState(z, step + 1)
  {
  }

  lemma StoryIsHeard(files: Offered -> nat, z: Offered, step: nat)
    requires z.Own? && files(z) == 1 && step == 2
    ensures Next(files, StoryState(z, step), Story(z, step)) == StoryState(z, step + 1)
  {
  }

  lemma StoryIsAccepted(files: Offered -> nat, z: Offered, step: nat)
    requires z.Own? && files(z) == 1 && 3 <= step <= 4
    ensures Next(files, StoryState(z, step), Story(z, step)) == StoryState(z, step + 1)
  {
  }

  lemma StoryIsAnswered(files: Offered -> nat, z: Offered, step: nat)
    requires z.Own? && files(z) == 1 && step == 5
    ensures Next(files, StoryState(z, step), Story(z, step)) == StoryState(z, step + 1)
  {
  }

  lemma StoryRuns(files: Offered -> nat, z: Offered, step: nat)
    requires z.Own? && files(z) == 1 && step == 6
    ensures Next(files, StoryState(z, step), Story(z, step)) == StoryState(z, step + 1)
  {
  }

  lemma StorySends(files: Offered -> nat, z: Offered, step: nat)
    requires z.Own? && files(z) == 1 && step == 7
    ensures Next(files, StoryState(z, step), Story(z, step)) == StoryState(z, step + 1)
  {
    assert 0 in FilesBelow(1);
  }

  lemma StoryGoesOn(files: Offered -> nat, z: Offered, step: nat)
    requires z.Own? && files(z) == 1 && step < 8
    ensures Next(files, StoryState(z, step), Story(z, step)) == StoryState(z, step + 1)
  {
    hide StoryState, Next, Story;
    if step == 0 {
      StoryOpens(files, z, step);
    } else if step == 1 {
      StoryIsSent(files, z, step);
    } else if step == 2 {
      StoryIsHeard(files, z, step);
    } else if step <= 4 {
      StoryIsAccepted(files, z, step);
    } else if step == 5 {
      StoryIsAnswered(files, z, step);
    } else if step == 6 {
      StoryRuns(files, z, step);
    } else {
      StorySends(files, z, step);
    }
  }

  lemma {:induction false} StoryFrom(files: Offered -> nat, z: Offered, step: nat) returns (actions: seq<Action>)
    requires z.Own? && files(z) == 1 && step <= 8
    ensures After(files, StoryState(z, step), actions) == StoryState(z, 8)
    decreases 8 - step
  {
    hide StoryState, Next, Story;
    if step == 8 {
      actions := [];
    } else {
      var rest := StoryFrom(files, z, step + 1);
      StoryGoesOn(files, z, step);
      actions := [Story(z, step)] + rest;
      assert actions[1..] == rest;
    }
  }

  /** There are runs with content under way. */
  lemma ContentCanBeUnderWay(files: Offered -> nat, z: Offered)
    requires z.Own? && files(z) == 1
    ensures exists actions ::
              var s := After(files, Start(), actions); !s.broken && s.toPeer == [Sent(z, Content(0))]
  {
    hide After;
    var actions := StoryFrom(files, z, 0);
    assert After(files, Start(), actions).toPeer == [Sent(z, Content(0))];
  }
}