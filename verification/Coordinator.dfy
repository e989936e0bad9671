/** The offer slots of one peer, and the queue by which the accepting peer serialises
    both peers' offers. Every operation here is one critical section of the state lock. */
module Coordinator {
  import opened Names

  const MAX_QUEUED_OFFERS := 64

  datatype Role = Inbound | Outbound

  datatype Offered = Own(handle: nat) | Peers(handle: nat)

  /** `transferring` is the offer that raised the transfer flag, if the flag is up. */
  datatype Slots = Slots(
    role: Role,
    incoming: Option<nat>,
    outgoing: Option<nat>,
    outgoingQueue: seq<nat>,
    coordinatorQueue: seq<Offered>,
    coordinatorActive: bool,
    transferring: Option<Offered>,
    canceled: set<Offered>)

  /** What the caller does after leaving the critical section. */
  datatype Effect = Begin(offer: Offered) | Wait | QueueFull | Overlap | Nothing

  function NoOffers(role: Role): Slots { Slots(role, None, None, [], [], false, None, {}) }

  // ---- the operations as functions ----

  predicate TakesNext(s: Slots) { s.role == Inbound && !s.coordinatorActive && s.coordinatorQueue != [] }

  function TakeCoordinatorOffer(s: Slots): Slots {
    if !TakesNext(s) then s
    else
      var rest := s.(coordinatorQueue := s.coordinatorQueue[1..], coordinatorActive := true);
      match s.coordinatorQueue[0]
      case Peers(y) => rest.(incoming := Some(y))
      case Own(x) => rest.(outgoing := Some(x))
  }

  function TakenOffer(s: Slots): Effect {
    if TakesNext(s) then Begin(s.coordinatorQueue[0]) else Nothing
  }

  predicate TakesOutgoing(s: Slots) { s.incoming == None && s.outgoing == None && s.outgoingQueue != [] }

  function TakeNextOutgoing(s: Slots): Slots {
    if !TakesOutgoing(s) then s
    else s.(outgoing := Some(s.outgoingQueue[0]), outgoingQueue := s.outgoingQueue[1..])
  }

  function Enqueued(s: Slots, o: Offered): Slots { s.(coordinatorQueue := s.coordinatorQueue + [o]) }

  /** The local user sends an offer. */
  function Submit(s: Slots, x: nat): (Slots, Effect) {
    if s.role == Inbound then
      if |s.coordinatorQueue| >= MAX_QUEUED_OFFERS then (s, QueueFull)
      else (TakeCoordinatorOffer(Enqueued(s, Own(x))), TakenOffer(Enqueued(s, Own(x))))
    else if s.outgoing != None then
      if |s.outgoingQueue| >= MAX_QUEUED_OFFERS then (s, QueueFull) else (s.(outgoingQueue := s.outgoingQueue + [x]), Wait)
    else (s.(outgoing := Some(x)), Begin(Own(x)))
  }

  /** The peer's manifest is complete and valid. */
  function Receive(s: Slots, y: nat): (Slots, Effect) {
    if s.role == Inbound then
      if |s.coordinatorQueue| >= MAX_QUEUED_OFFERS then (s, QueueFull)
      else (TakeCoordinatorOffer(Enqueued(s, Peers(y))), TakenOffer(Enqueued(s, Peers(y))))
    else if s.incoming != None then (s, Overlap)
    else (s.(incoming := Some(y)), Begin(Peers(y)))
  }

  /** An offer is accepted here, or accepted by the peer. */
  function StartTransfer(s: Slots, o: Offered): Slots {
    if InSlot(s, o) then s.(transferring := Some(o)) else s
  }

  predicate InSlot(s: Slots, o: Offered) {
    match o
    case Own(x) => s.outgoing == Some(x)
    case Peers(y) => s.incoming == Some(y)
  }

  /** An offer is over: its slot empties, the transfer flag falls, the next one moves up. */
  function Clear(s: Slots, o: Offered): (Slots, Effect) {
    if !InSlot(s, o) then (s, Nothing)
    else
      var emptied := if o.Own? then s.(outgoing := None, transferring := None) else s.(incoming := None, transferring := None);
      if s.role == Inbound then
        var idle := emptied.(coordinatorActive := false);
        (TakeCoordinatorOffer(idle), TakenOffer(idle))
      else
        (TakeNextOutgoing(emptied), if TakesOutgoing(emptied) then Begin(Own(emptied.outgoingQueue[0])) else Nothing)
  }

  /** The offer the local user's cancel command picks. */
  function CancelTarget(s: Slots): Option<Offered> {
    if s.transferring == None then None
    else if s.outgoing != None then Some(Own(s.outgoing.value))
    else if s.incoming != None then Some(Peers(s.incoming.value))
    else None
  }

  function Cancel(s: Slots): Slots {
    match CancelTarget(s)
    case None => s
    case Some(o) => s.(canceled := s.canceled + {o})
  }

  // ---- the operations in place ----

  class Attempt {
    const role: Role
    var incoming: Option<nat>
    var outgoing: Option<nat>
    var outgoingQueue: seq<nat>
    var coordinatorQueue: seq<Offered>
    var coordinatorActive: bool
    var transferring: Option<Offered>
    var canceled: set<Offered>

    function Value(): Slots
      reads this
    {
      Slots(role, incoming, outgoing, outgoingQueue, coordinatorQueue, coordinatorActive, transferring, canceled)
    }

    constructor (role: Role)
      ensures Value() == NoOffers(role)
    {
      this.role := role;
      incoming, outgoing, outgoingQueue, coordinatorQueue := None, None, [], [];
      coordinatorActive, transferring, canceled := false, None, {};
    }

    method TakeCoordinatorOfferLocked() returns (next: Effect)
      modifies this
      ensures Value() == TakeCoordinatorOffer(old(Value())) && next == TakenOffer(old(Value()))
    {
      if role != Inbound || coordinatorActive || coordinatorQueue == [] {
        return Nothing;
      }
      var taken := coordinatorQueue[0];
      coordinatorQueue := coordinatorQueue[1..];
      coordinatorActive := true;
      match taken {
        case Peers(y) => incoming := Some(y);
        case Own(x) => outgoing := Some(x);
      }
      return Begin(taken);
    }

    method TakeNextOutgoingLocked() returns (next: Effect)
      modifies this
      ensures Value() == TakeNextOutgoing(old(Value()))
      ensures next == if TakesOutgoing(old(Value())) then Begin(Own(old(outgoingQueue)[0])) else Nothing
    {
      if incoming != None || outgoing != None || outgoingQueue == [] {
        return Nothing;
      }
      next := Begin(Own(outgoingQueue[0]));
      outgoing := Some(outgoingQueue[0]);
      outgoingQueue := outgoingQueue[1..];
    }

    /** `queued` is the answer shown to the user. */
    method SendPaths(x: nat) returns (effect: Effect, queued: bool)
      modifies this
      ensures (Value(), effect) == Submit(old(Value()), x)
      ensures role == Inbound && effect != QueueFull ==> queued == (old(coordinatorActive) || old(coordinatorQueue) != [])
    {
      queued := false;
      if role == Inbound {
        if |coordinatorQueue| >= MAX_QUEUED_OFFERS {
          return QueueFull, false;
        }
        queued := coordinatorActive || |coordinatorQueue| > 0;
        coordinatorQueue := coordinatorQueue + [Own(x)];
        effect := TakeCoordinatorOfferLocked();
        return effect, queued;
      }
      if outgoing != None {
        if |outgoingQueue| >= MAX_QUEUED_OFFERS {
          return QueueFull, false;
        }
        outgoingQueue := outgoingQueue + [x];
        return Wait, false;
      }
      outgoing := Some(x);
      return Begin(Own(x)), false;
    }

    method HandleOfferComplete(y: nat) returns (effect: Effect)
      modifies this
      ensures (Value(), effect) == Receive(old(Value()), y)
    {
      if role == Inbound {
        if |coordinatorQueue| >= MAX_QUEUED_OFFERS {
          return QueueFull;
        }
        coordinatorQueue := coordinatorQueue + [Peers(y)];
        effect := TakeCoordinatorOfferLocked();
        return effect;
      }
      if incoming != None {
        return Overlap;
      }
      incoming := Some(y);
      return Begin(Peers(y));
    }

    method ClearOutgoing(x: nat) returns (effect: Effect)
      modifies this
      ensures (Value(), effect) == Clear(old(Value()), Own(x))
    {
      if outgoing != Some(x) {
        return Nothing;
      }
      transferring := None;
      outgoing := None;
      if role == Inbound {
        coordinatorActive := false;
        effect := TakeCoordinatorOfferLocked();
      } else {
        effect := TakeNextOutgoingLocked();
      }
    }

    method ClearIncoming(y: nat) returns (effect: Effect)
      modifies this
      ensures (Value(), effect) == Clear(old(Value()), Peers(y))
    {
      if incoming != Some(y) {
        return Nothing;
      }
      transferring := None;
      incoming := None;
      if role == Inbound {
        coordinatorActive := false;
        effect := TakeCoordinatorOfferLocked();
      } else {
        effect := TakeNextOutgoingLocked();
      }
    }

    /** `sent` is the offer whose cancel frame goes out; a second request sends none. */
    method CancelActiveOffer() returns (active: bool, sent: Option<Offered>)
      modifies this
      ensures Value() == Cancel(old(Value()))
      ensures active == CancelTarget(old(Value())).Some?
      ensures sent == if active && CancelTarget(old(Value())).value !in old(canceled) then CancelTarget(old(Value())) else None
    {
      if transferring == None {
        return false, None;
      }
      if outgoing != None {
        if Own(outgoing.value) in canceled {
          assert canceled == canceled + {Own(outgoing.value)};
          return true, None;
        }
        canceled := canceled + {Own(outgoing.value)};
        return true, Some(Own(outgoing.value));
      }
      if incoming != None {
        if Peers(incoming.value) in canceled {
          assert canceled == canceled + {Peers(incoming.value)};
          return true, None;
        }
        canceled := canceled + {Peers(incoming.value)};
        return true, Some(Peers(incoming.value));
      }
      return false, None;
    }
  }

  // ---- runs of the accepting peer, with their histories ----

  datatype Op = SubmitOp(x: nat) | ReceiveOp(y: nat) | TransferOp(o: Offered) | ClearOp(o: Offered) | CancelOp

  /** What was admitted to the queue, what was started, and how many offers ended. */
  datatype Run = Run(slots: Slots, admitted: seq<Offered>, started: seq<Offered>, ended: nat)

  function Begun(effect: Effect): seq<Offered> { if effect.Begin? then [effect.offer] else [] }

  function Apply(r: Run, op: Op): Run {
    match op
    case SubmitOp(x) =>
      var (slots, effect) := Submit(r.slots, x);
      Run(slots, if effect == QueueFull then r.admitted else r.admitted + [Own(x)], r.started + Begun(effect), r.ended)
    case ReceiveOp(y) =>
      var (slots, effect) := Receive(r.slots, y);
      Run(slots, if effect == QueueFull || effect == Overlap then r.admitted else r.admitted + [Peers(y)], r.started + Begun(effect), r.ended)
    case TransferOp(o) => r.(slots := StartTransfer(r.slots, o))
    case ClearOp(o) =>
      var (slots, effect) := Clear(r.slots, o);
      Run(slots, r.admitted, r.started + Begun(effect), if Active(r.slots) == Some(o) then r.ended + 1 else r.ended)
    case CancelOp => r.(slots := Cancel(r.slots))
  }

  function ApplyAll(r: Run, ops: seq<Op>): Run
    decreases |ops|
  {
    if ops == [] then r else ApplyAll(Apply(r, ops[0]), ops[1..])
  }

  function FirstRun(): Run { Run(NoOffers(Inbound), [], [], 0) }

  /** The offer in a slot of the accepting peer. */
  function Active(s: Slots): Option<Offered> {
    if s.outgoing != None then Some(Own(s.outgoing.value))
    else if s.incoming != None then Some(Peers(s.incoming.value))
    else None
  }

  ghost predicate Serial(r: Run) {
    var s := r.slots;
    && s.role == Inbound
    && r.started + s.coordinatorQueue == r.admitted
    && (s.coordinatorActive <==> s.incoming.Some? || s.outgoing.Some?)
    && !(s.incoming.Some? && s.outgoing.Some?)
    && (!s.coordinatorActive ==> s.coordinatorQueue == [])
    && |s.coordinatorQueue| <= MAX_QUEUED_OFFERS
    && |r.started| == r.ended + (if s.coordinatorActive then 1 else 0)
    && (s.coordinatorActive ==> r.started != [] && Active(s) == Some(r.started[|r.started| - 1]))
    && (s.transferring.Some? ==> s.transferring == Active(s))
    && s.outgoingQueue == []
  }

  lemma AdmitKeepsSerial(r: Run, o: Offered)
    requires Serial(r) && |r.slots.coordinatorQueue| < MAX_QUEUED_OFFERS
    ensures var queued := Enqueued(r.slots, o);
            Serial(Run(TakeCoordinatorOffer(queued), r.admitted + [o], r.started + Begun(TakenOffer(queued)), r.ended))
  {
    var queued := Enqueued(r.slots, o);
    if r.slots.coordinatorActive {
      assert r.started + [] + queued.coordinatorQueue == r.admitted + [o];
      assert r.started + [] == r.started;
    } else {
      assert queued.coordinatorQueue == [o];
      assert r.started + [o] + [] == r.admitted + [o];
    }
  }

  lemma ClearKeepsSerial(r: Run, o: Offered)
    requires Serial(r)
    ensures Serial(Apply(r, ClearOp(o)))
  {
    var s := r.slots;
    if Active(s) == Some(o) {
      var queue := s.coordinatorQueue;
      if queue != [] {
        assert r.started + [queue[0]] + queue[1..] == r.started + queue;
      } else {
        assert r.started + [] == r.started;
      }
    } else {
      assert r.started + [] == r.started;
    }
  }

  lemma ApplyKeepsSerial(r: Run, op: Op)
    requires Serial(r)
    ensures Serial(Apply(r, op))
  {
    match op {
      case SubmitOp(x) =>
        assert r.started + [] == r.started;
        if |r.slots.coordinatorQueue| < MAX_QUEUED_OFFERS {
          AdmitKeepsSerial(r, Own(x));
        }
      case ReceiveOp(y) =>
        assert r.started + [] == r.started;
        if |r.slots.coordinatorQueue| < MAX_QUEUED_OFFERS {
          AdmitKeepsSerial(r, Peers(y));
        }
      case TransferOp(_) =>
      case ClearOp(o) => ClearKeepsSerial(r, o);
      case CancelOp =>
    }
  }

  lemma {:induction false} RunsAreSerial(r: Run, ops: seq<Op>)
    requires Serial(r)
    ensures Serial(ApplyAll(r, ops))
    decreases |ops|
  {
    hide Serial, Apply;
    if ops != [] {
      ApplyKeepsSerial(r, ops[0]);
      RunsAreSerial(Apply(r, ops[0]), ops[1..]);
    }
  }

  /** For every run of the accepting peer: offers of both peers start one at a time, in
      the order in which they were admitted, each as soon as those before it have ended;
      one slot is set exactly while an offer is active, and an idle peer has no queue. */
  lemma OffersAreSerialised(ops: seq<Op>)
    ensures var r := ApplyAll(FirstRun(), ops);
            var s := r.slots;
            && r.started + s.coordinatorQueue == r.admitted
            && r.started == r.admitted[..if |r.admitted| <= r.ended then |r.admitted| else r.ended + 1]
            && (s.coordinatorActive <==> s.incoming.Some? != s.outgoing.Some?)
            && (!s.coordinatorActive ==> s.incoming == None && s.outgoing == None && s.coordinatorQueue == [])
            && (s.coordinatorActive ==> |r.admitted| > r.ended && Active(s) == Some(r.admitted[r.ended]))
            && |s.coordinatorQueue| <= MAX_QUEUED_OFFERS
  {
    RunsAreSerial(FirstRun(), ops);
    var r := ApplyAll(FirstRun(), ops);
    assert r.admitted[..|r.started|] == r.started;
  }

  /** An offer is refused exactly when as many as the queue holds wait behind the active
      one, and it is reported as queued exactly when it has not begun. */
  lemma RefusedIffFull(ops: seq<Op>, o: Offered)
    ensures var r := ApplyAll(FirstRun(), ops);
            var (slots, effect) := if o.Own? then Submit(r.slots, o.handle) else Receive(r.slots, o.handle);
            && (effect == QueueFull <==> |r.admitted| == r.ended + 1 + MAX_QUEUED_OFFERS)
            && (effect != QueueFull ==>
                  (effect == Begin(o) <==> !(r.slots.coordinatorActive || r.slots.coordinatorQueue != []))
                  && (effect == Begin(o) || effect == Nothing))
  {
    RunsAreSerial(FirstRun(), ops);
  }

  // ---- the transfer in progress, whatever its flag says ----

  /** `moving` is the offer whose transfer began last and has not ended; `unflagged` says
      that another offer has ended since it began. */
  datatype Watch = Watch(run: Run, moving: Option<Offered>, unflagged: bool)

  function Observe(w: Watch, op: Op): Watch {
    var r := Apply(w.run, op);
    match op
    case TransferOp(o) => if InSlot(w.run.slots, o) then Watch(r, Some(o), false) else Watch(r, w.moving, w.unflagged)
    case ClearOp(o) =>
      if !InSlot(w.run.slots, o) then Watch(r, w.moving, w.unflagged)
      else if w.moving == Some(o) then Watch(r, None, false)
      else Watch(r, w.moving, w.moving.Some?)
    case _ => Watch(r, w.moving, w.unflagged)
  }

  function ObserveAll(w: Watch, ops: seq<Op>): Watch
    decreases |ops|
  {
    if ops == [] then w else ObserveAll(Observe(w, ops[0]), ops[1..])
  }

  function FirstWatch(role: Role): Watch { Watch(Run(NoOffers(role), [], [], 0), None, false) }

  /** Watching changes nothing. */
  lemma {:induction false} ObservedRun(w: Watch, ops: seq<Op>)
    ensures ObserveAll(w, ops).run == ApplyAll(w.run, ops)
    decreases |ops|
  {
    if ops != [] {
      ObservedRun(Observe(w, ops[0]), ops[1..]);
    }
  }

  /** The accepting peer has at most one offer in its slots, and exactly while active. */
  predicate OneSlot(slots: Slots) {
    slots.role == Inbound ==>
      && (slots.coordinatorActive <==> slots.incoming.Some? || slots.outgoing.Some?)
      && !(slots.incoming.Some? && slots.outgoing.Some?)
  }

  ghost predicate Watched(w: Watch) {
    && OneSlot(w.run.slots)
    && w.run.slots.transferring == (if w.unflagged then None else w.moving)
    && (w.moving.Some? ==> InSlot(w.run.slots, w.moving.value))
  }

  lemma ClearStaysWatched(w: Watch, o: Offered)
    requires Watched(w)
    ensures Watched(Observe(w, ClearOp(o))) && Observe(w, ClearOp(o)).run.slots.role == w.run.slots.role
  {
  }

  lemma StaysWatched(w: Watch, op: Op)
    requires Watched(w)
    ensures Watched(Observe(w, op)) && Observe(w, op).run.slots.role == w.run.slots.role
  {
    hide Clear;
    match op
    case ClearOp(o) => ClearStaysWatched(w, o);
    case _ =>
  }

  lemma {:induction false} WatchesHold(w: Watch, ops: seq<Op>)
    requires Watched(w)
    ensures Watched(ObserveAll(w, ops)) && ObserveAll(w, ops).run.slots.role == w.run.slots.role
    decreases |ops|
  {
    hide Observe, Watched;
    if ops != [] {
      StaysWatched(w, ops[0]);
      WatchesHold(Observe(w, ops[0]), ops[1..]);
    }
  }

  /** In every run of either peer the cancel command picks the offer being transferred
      exactly when no other offer has ended since its transfer began, and it is not the
      peer's while an offer of this peer's holds the other slot. */
  lemma CancelPicksTheTransferIff(role: Role, ops: seq<Op>)
    ensures var w := ObserveAll(FirstWatch(role), ops);
            w.moving.Some? ==>
              (CancelTarget(w.run.slots) == w.moving <==> !w.unflagged && !(w.moving.value.Peers? && w.run.slots.outgoing.Some?))
  {
    WatchesHold(FirstWatch(role), ops);
  }

  /** The transfer flag is down during a transfer exactly when another offer has ended. */
  lemma TransferGoesOnUnflaggedIff(role: Role, ops: seq<Op>)
    ensures var w := ObserveAll(FirstWatch(role), ops);
            w.moving.Some? ==> (w.run.slots.transferring == None <==> w.unflagged)
  {
    WatchesHold(FirstWatch(role), ops);
  }

  ghost predicate SoleTransfer(w: Watch) { Serial(w.run) && Watched(w) && !w.unflagged }

  lemma {:induction false} SoleTransferHolds(w: Watch, ops: seq<Op>)
    requires SoleTransfer(w)
    ensures SoleTransfer(ObserveAll(w, ops))
    decreases |ops|
  {
    hide Serial, Apply;
    if ops != [] {
      ApplyKeepsSerial(w.run, ops[0]);
      NothingElseEnds(w, ops[0]);
      SoleTransferHolds(Observe(w, ops[0]), ops[1..]);
    }
  }

  lemma NothingElseEnds(w: Watch, op: Op)
    requires SoleTransfer(w)
    ensures Watched(Observe(w, op)) && !Observe(w, op).unflagged
  {
  }

  /** On the accepting peer both conditions always hold: the command picks the transfer. */
  lemma CoordinatorCancelsTheTransfer(ops: seq<Op>)
    ensures var w := ObserveAll(FirstWatch(Inbound), ops);
            CancelTarget(w.run.slots) == w.moving && !w.unflagged
  {
    SoleTransferHolds(FirstWatch(Inbound), ops);
  }
}
