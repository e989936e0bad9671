/** Runs of both peers that only do what is due come to rest. */
module Progress {
  import opened Names
  import opened Coordinator
  import opened OneOffer
  import opened Steps
  import opened Standstill
  import opened Deadlock
  import opened Overtaking

  /** What is due: a step that no user has to take and that is not another chunk. */
  ghost predicate Due(files: Offered -> nat, s: System, a: Action) {
    && !s.broken
    && match a
       case OfferMove(z, m) => !Voluntary(m) && !m.SendContent? && CanMove(files(z), RecordOf(s, z), PlacesOf(s, z), m)
       case DeliverToPeer => s.toPeer != [] && CanDeliver(s, s.toPeer[0], false)
       case DeliverToCoordinator => s.toCoordinator != [] && CanDeliver(s, s.toCoordinator[0], true)
       case _ => false
  }

  // ---- the work left ----

  function PhaseWork(phase: Phase): nat {
    match phase
    case Created => 9
    case Waiting => 5
    case Running => 5
    case _ => 0
  }

  function Work(r: Record): nat {
    var o, t := r.owner, r.taker;
    PhaseWork(o.phase) + 5 * o.cancelsOwed + (if o.decision.Some? then 1 else 0) + 4 * |o.left| + |o.inbox|
    + (if t.decisionOwed then 3 else 0) + 7 * t.requestsOwed + (if t.status.Closing? then 1 else 0)
  }

  function FrameWork(frame: Frame, forth: bool): nat {
    match frame
    case Manifest => 3
    case Content(_) => 1
    case Terminal(_, _) => 3
    case Batch => 4
    case CancelFrame => if forth then 4 else 6
    case _ => 2
  }

  function SentWork(frame: Option<Frame>, forth: bool): nat { if frame.Some? then FrameWork(frame.value, forth) else 0 }

  function WireWork(wire: seq<Sent>, toCoordinator: bool): nat {
    if wire == [] then 0
    else FrameWork(wire[0].frame, !GoesToOwner(toCoordinator, wire[0].offer)) + WireWork(wire[1..], toCoordinator)
  }

  ghost function OffersWork(offers: map<Offered, Record>): nat {
    if offers == map[] then 0
    else
      var z :| z in offers;
      Work(offers[z]) + OffersWork(offers - {z})
  }

  ghost function WorkLeft(s: System): nat { OffersWork(s.offers) + WireWork(s.toPeer, false) + WireWork(s.toCoordinator, true) }

  lemma {:induction false} OneOffersWork(offers: map<Offered, Record>, z: Offered)
    requires z in offers
    ensures OffersWork(offers) == Work(offers[z]) + OffersWork(offers - {z})
    decreases |offers|
  {
    var w :| w in offers && OffersWork(offers) == Work(offers[w]) + OffersWork(offers - {w});
    if w != z {
      OneOffersWork(offers - {w}, z);
      OneOffersWork(offers - {z}, w);
      assert offers - {w} - {z} == offers - {z} - {w};
    }
  }

  lemma UpdatedWork(offers: map<Offered, Record>, z: Offered, r: Record)
    ensures OffersWork(offers[z := r]) + (if z in offers then Work(offers[z]) else Work(FRESH)) == OffersWork(offers) + Work(r)
  {
    hide Work, OffersWork;
    OneOffersWork(offers[z := r], z);
    FreshWork();
    if z in offers {
      OneOffersWork(offers, z);
      assert offers[z := r] - {z} == offers - {z};
    } else {
      assert offers[z := r] - {z} == offers;
    }
  }

  lemma FreshWork()
    ensures Work(FRESH) == 0
  {
  }

  lemma {:induction false} WirePush(wire: seq<Sent>, toCoordinator: bool, z: Offered, frame: Option<Frame>)
    ensures WireWork(wire + Tagged(z, frame), toCoordinator) == WireWork(wire, toCoordinator) + SentWork(frame, !GoesToOwner(toCoordinator, z))
  {
    if frame == None {
      assert wire + Tagged(z, frame) == wire;
    } else if wire == [] {
      assert wire + Tagged(z, frame) == [Sent(z, frame.value)];
    } else {
      WirePush(wire[1..], toCoordinator, z, frame);
      assert (wire + Tagged(z, frame))[1..] == wire[1..] + Tagged(z, frame);
    }
  }

  /** A step changes the work by what it does to its offer and by what it sends. */
  lemma AppliedWork(t: System, z: Offered, e: Effects)
    requires !e.broken
    ensures WorkLeft(OneOffer.Apply(t, z, e)) + Work(RecordOf(t, z))
         == WorkLeft(t) + Work(e.record) + SentWork(e.forth, true) + SentWork(e.back, false)
  {
    hide Work, WireWork, OffersWork, RunAfter;
    UpdatedWork(t.offers, z, e.record);
    WirePush(t.toPeer, false, z, if z.Own? then e.forth else e.back);
    WirePush(t.toCoordinator, true, z, if z.Own? then e.back else e.forth);
  }

  lemma DecisionShrinks(z: Offered, r: Record)
    requires r.owner.phase.Waiting? && r.owner.decision.Some?
    ensures var e := Moved(z, r, TakeDecision); Work(e.record) + SentWork(e.forth, true) + SentWork(e.back, false) < Work(r)
  {
  }

  lemma ResultShrinks(z: Offered, r: Record)
    requires r.owner.inbox != [] && (r.owner.phase.Finishing? || r.owner.phase.Running?)
    ensures var e := Moved(z, r, TakeResult); Work(e.record) + SentWork(e.forth, true) + SentWork(e.back, false) < Work(r)
  {
  }

  lemma TerminalShrinks(z: Offered, n: nat, r: Record, p: Places, m: Move)
    requires CanMove(n, r, p, m) && m.SendTerminal?
    ensures var e := Moved(z, r, m); Work(e.record) + SentWork(e.forth, true) + SentWork(e.back, false) < Work(r)
  {
    assert |r.owner.left - {m.file}| == |r.owner.left| - 1;
  }

  lemma SendingShrinks(z: Offered, n: nat, r: Record, p: Places, m: Move)
    requires CanMove(n, r, p, m) && !Voluntary(m) && !m.SendContent? && !m.TakeDecision? && !m.TakeResult? && !m.SendTerminal?
    ensures var e := Moved(z, r, m); Work(e.record) + SentWork(e.forth, true) + SentWork(e.back, false) < Work(r)
  {
  }

  lemma MoveShrinks(z: Offered, n: nat, r: Record, p: Places, m: Move)
    requires CanMove(n, r, p, m) && !Voluntary(m) && !m.SendContent?
    ensures var e := Moved(z, r, m); Work(e.record) + SentWork(e.forth, true) + SentWork(e.back, false) < Work(r)
  {
    hide Work, Moved, SentWork;
    if m.TakeDecision? {
      DecisionShrinks(z, r);
    } else if m.TakeResult? {
      ResultShrinks(z, r);
    } else if m.SendTerminal? {
      TerminalShrinks(z, n, r, p, m);
    } else {
      SendingShrinks(z, n, r, p, m);
    }
  }

  lemma HeededShrinks(r: Record, p: Places, frame: Frame)
    requires !Heeded(r, p, frame).broken && (frame.Decision? ==> r.owner.decision == None)
    ensures var e := Heeded(r, p, frame); Work(e.record) + SentWork(e.forth, true) + SentWork(e.back, false) < Work(r) + FrameWork(frame, false)
  {
  }

  lemma HeardShrinks(z: Offered, r: Record, p: Places, frame: Frame, room: bool, overlap: bool)
    requires !Heard(z, r, p, frame, room, overlap).broken
    ensures var e := Heard(z, r, p, frame, room, overlap);
            Work(e.record) + SentWork(e.forth, true) + SentWork(e.back, false) < Work(r) + FrameWork(frame, true)
  {
  }

  lemma ArrivalShrinks(s: System, sent: Sent, toCoordinator: bool)
    requires CanDeliver(s, sent, toCoordinator) && !Arrived(s, sent, toCoordinator).broken
    ensures var e := Arrived(s, sent, toCoordinator);
            Work(e.record) + SentWork(e.forth, true) + SentWork(e.back, false)
            < Work(RecordOf(s, sent.offer)) + FrameWork(sent.frame, !GoesToOwner(toCoordinator, sent.offer))
  {
    hide Work, FrameWork, Heard, Heeded, PlacesOf;
    var z, r, p := sent.offer, RecordOf(s, sent.offer), PlacesOf(s, sent.offer);
    if GoesToOwner(toCoordinator, z) {
      HeededShrinks(r, p, sent.frame);
    } else {
      var slots := ReceiverSlots(s, z);
      HeardShrinks(z, r, p, sent.frame, slots.role == Outbound || |slots.coordinatorQueue| < MAX_QUEUED_OFFERS,
                   slots.role == Outbound && slots.incoming != None);
    }
  }

  lemma TakenWork(s: System, t: System, toCoordinator: bool)
    requires Taken(s, t, toCoordinator)
    ensures var sent := Head(s, toCoordinator);
            WorkLeft(s) == WorkLeft(t) + FrameWork(sent.frame, !GoesToOwner(toCoordinator, sent.offer))
  {
    hide OffersWork, FrameWork;
  }

  /** Every step that is due leaves less to do, or ends the session. */
  lemma DueStepsShrink(files: Offered -> nat, s: System, a: Action)
    requires Due(files, s, a)
    ensures Next(files, s, a).broken || WorkLeft(Next(files, s, a)) < WorkLeft(s)
  {
    hide Work, WorkLeft, FrameWork, Moved, Arrived, CanMove, CanDeliver, OneOffer.Apply, RecordOf, PlacesOf;
    NextTakes(files, s, a);
    match a
    case OfferMove(z, m) =>
      MoveShrinks(z, files(z), RecordOf(s, z), PlacesOf(s, z), m);
      MoveNeverBreaks(z, RecordOf(s, z), m);
      AppliedWork(s, z, Moved(z, RecordOf(s, z), m));
    case DeliverToPeer => DeliveryShrinks(s, s.(toPeer := s.toPeer[1..]), false);
    case DeliverToCoordinator => DeliveryShrinks(s, s.(toCoordinator := s.toCoordinator[1..]), true);
    case _ =>
  }

  lemma DeliveryShrinks(s: System, t: System, toCoordinator: bool)
    requires Taken(s, t, toCoordinator) && CanDeliver(s, Head(s, toCoordinator), toCoordinator)
    ensures var s' := OneOffer.Apply(t, Head(s, toCoordinator).offer, Arrived(s, Head(s, toCoordinator), toCoordinator));
            s'.broken || WorkLeft(s') < WorkLeft(s)
  {
    hide Work, WorkLeft, FrameWork, Arrived, CanDeliver;
    var sent := Head(s, toCoordinator);
    TakenWork(s, t, toCoordinator);
    if !Arrived(s, sent, toCoordinator).broken {
      ArrivalShrinks(s, sent, toCoordinator);
      AppliedWork(t, sent.offer, Arrived(s, sent, toCoordinator));
      assert RecordOf(t, sent.offer) == RecordOf(s, sent.offer);
    }
  }

  /** And short of rest something is due. */
  lemma SomethingIsDue(files: Offered -> nat, s: System) returns (a: Action)
    requires !s.broken && !AtRest(files, s)
    ensures Due(files, s, a)
  {
    hide CanDeliver, PlacesOf, RecordOf;
    if s.toPeer != [] && CanDeliver(s, s.toPeer[0], false) {
      a := DeliverToPeer;
    } else if s.toCoordinator != [] && CanDeliver(s, s.toCoordinator[0], true) {
      a := DeliverToCoordinator;
    } else {
      var z :| !NothingDue(files(z), RecordOf(s, z), PlacesOf(s, z));
      var m :| !Voluntary(m) && CanMove(files(z), RecordOf(s, z), PlacesOf(s, z), m);
      a := OfferMove(z, if m.SendContent? then SendTerminal(m.file, true) else m);
    }
  }

  ghost predicate AllDue(files: Offered -> nat, s: System, actions: seq<Action>)
    decreases |actions|
  {
    actions == [] || (Due(files, s, actions[0]) && AllDue(files, Next(files, s, actions[0]), actions[1..]))
  }

  /** However the steps that are due are scheduled, there are no more of them than there is
      work left, unless the session ends. */
  lemma {:induction false} DueRunsAreBounded(files: Offered -> nat, s: System, actions: seq<Action>)
    requires AllDue(files, s, actions)
    ensures After(files, s, actions).broken || |actions| + WorkLeft(After(files, s, actions)) <= WorkLeft(s)
    decreases |actions|
  {
    hide Next, Due, WorkLeft;
    if actions != [] {
      var s' := Next(files, s, actions[0]);
      DueStepsShrink(files, s, actions[0]);
      if s'.broken {
        BrokenStays(files, s', actions[1..]);
      } else {
        DueRunsAreBounded(files, s', actions[1..]);
      }
    }
  }

  /** So from every state the steps that are due lead to rest, or to the session's end. */
  lemma {:induction false} RestIsReached(files: Offered -> nat, s: System) returns (actions: seq<Action>)
    ensures AllDue(files, s, actions)
    ensures After(files, s, actions).broken || AtRest(files, After(files, s, actions))
    decreases if s.broken then 0 else 1, WorkLeft(s)
  {
    hide AtRest, Next, Due, WorkLeft;
    if s.broken || AtRest(files, s) {
      actions := [];
    } else {
      var a := SomethingIsDue(files, s);
      DueStepsShrink(files, s, a);
      var rest := RestIsReached(files, Next(files, s, a));
      actions := [a] + rest;
      assert actions[1..] == rest;
    }
  }

  // ---- accepted offers end ----

  lemma {:induction false} DueRunsAreOrderly(files: Offered -> nat, s: System, actions: seq<Action>)
    requires AllDue(files, s, actions)
    ensures NobodyJumps(files, s, actions) && NobodyFlagsEarly(files, s, actions)
    decreases |actions|
  {
    hide Next;
    if actions != [] {
      DueRunsAreOrderly(files, Next(files, s, actions[0]), actions[1..]);
    }
  }

  /** Once an offer has been accepted, in a run without overtaking and early cancels, what
      is due is enough to end it, unless the session ends before. */
  lemma AcceptedOfferGoesOn(files: Offered -> nat, before: seq<Action>, z: Offered) returns (more: seq<Action>)
    requires NobodyJumps(files, Start(), before) && NobodyFlagsEarly(files, Start(), before)
    requires RecordOf(After(files, Start(), before), z).taker.accepted
    ensures var s := After(files, Start(), before);
            AllDue(files, s, more) && (After(files, s, more).broken || Ended(RecordOf(After(files, s, more), z)))
  {
    hide After, AtRest, AllDue, InLine, Armed;
    var s := After(files, Start(), before);
    more := RestIsReached(files, s);
    var t := After(files, s, more);
    DueRunsAreOrderly(files, s, more);
    StartIsInLine(files);
    StartIsArmed(files);
    RunStaysInLine(files, Start(), before);
    RunStaysInLine(files, s, more);
    RunKeepsArmed(files, Start(), before);
    RunKeepsArmed(files, s, more);
    RunLasts(files, s, more, z);
    if !t.broken {
      OrderlyOffersEnd(files, t, z);
    }
  }
}
