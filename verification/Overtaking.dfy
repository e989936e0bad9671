/** Where nobody overtakes, nobody is blocked: the connecting peer's offers keep their order
    on the way into the accepting peer's queue. */
module Overtaking {
  import opened Names
  import opened Coordinator
  import opened OneOffer
  import opened Steps
  import opened Standstill
  import opened Deadlock
  import ConnectingPeer

  ghost predicate Precedes<T>(s: seq<T>, a: T, b: T) {
    exists i, j | 0 <= i < j < |s| :: s[i] == a && s[j] == b
  }

  lemma PrecedesPush<T>(s: seq<T>, x: T, a: T, b: T)
    ensures Precedes(s + [x], a, b) <==> Precedes(s, a, b) || (a in s && b == x)
  {
    var t := s + [x];
    if Precedes(s, a, b) {
      var i, j :| 0 <= i < j < |s| && s[i] == a && s[j] == b;
      assert t[i] == a && t[j] == b;
    } else if a in s && b == x {
      var i :| 0 <= i < |s| && s[i] == a;
      assert t[i] == a && t[|s|] == b;
    }
    if Precedes(t, a, b) {
      var i, j :| 0 <= i < j < |t| && t[i] == a && t[j] == b;
      assert s[i] == a;
      assert j < |s| ==> s[j] == b;
    }
  }

  lemma PrecedesInTail<T>(s: seq<T>, a: T, b: T)
    requires s != [] && Precedes(s[1..], a, b)
    ensures Precedes(s, a, b)
  {
    var i, j :| 0 <= i < j < |s[1..]| && s[1..][i] == a && s[1..][j] == b;
    assert s[i + 1] == a && s[j + 1] == b;
  }

  // ---- manifests on their way ----

  function Sheets(wire: seq<Sent>): seq<nat> {
    if wire == [] then [] else SheetOf(wire[0]) + Sheets(wire[1..])
  }

  function SheetOf(sent: Sent): seq<nat> { if sent.offer.Peers? && sent.frame.Manifest? then [sent.offer.handle] else [] }

  lemma {:induction false} SheetsPush(wire: seq<Sent>, sent: Sent)
    ensures Sheets(wire + [sent]) == Sheets(wire) + SheetOf(sent)
  {
    hide SheetOf;
    if wire == [] {
      assert wire + [sent] == [sent] && [sent][1..] == [];
    } else {
      var first, rest := wire[0], wire[1..];
      SheetsPush(rest, sent);
      assert wire + [sent] == [first] + (rest + [sent]);
      assert Sheets([first] + (rest + [sent])) == SheetOf(first) + Sheets(rest + [sent]) by {
        assert ([first] + (rest + [sent]))[1..] == rest + [sent];
      }
      assert SheetOf(first) + (Sheets(rest) + SheetOf(sent)) == SheetOf(first) + Sheets(rest) + SheetOf(sent);
    }
  }

  lemma SheetsAppend(wire: seq<Sent>, z: Offered, frame: Option<Frame>)
    ensures Sheets(wire + Tagged(z, frame)) == Sheets(wire) + (if z.Peers? && frame == Some(Manifest) then [z.handle] else [])
  {
    hide Sheets;
    if frame.Some? {
      SheetsPush(wire, Sent(z, frame.value));
    } else {
      assert wire + Tagged(z, frame) == wire;
    }
  }

  lemma {:induction false} SheetsAreManifests(wire: seq<Sent>, h: nat)
    ensures h in Sheets(wire) <==> Manifest in Of(wire, Peers(h))
  {
    if wire != [] {
      SheetsAreManifests(wire[1..], h);
    }
  }

  // ---- the order of the connecting peer's offers ----

  predicate NotSent(s: System, h: nat) { RecordOf(s, Peers(h)).owner.phase.Created? }

  predicate NotHeard(s: System, h: nat) { RecordOf(s, Peers(h)).taker.status.Unseen? }

  /** `x` was made before `y`, and is still ahead of it. */
  ghost predicate Ahead(s: System, x: nat, y: nat) {
    var sheets := Sheets(s.toCoordinator);
    && (NotSent(s, x) ==> NotSent(s, y))
    && (x in sheets ==> NotHeard(s, y) && !Precedes(sheets, y, x))
    && !Precedes(s.coordinator.admitted, Peers(y), Peers(x))
  }

  ghost predicate Ordered(s: System) {
    && (forall x: nat, y: nat | Precedes(s.peer.admitted, Own(x), Own(y)) :: x != y && Ahead(s, x, y))
    && (forall h: nat | Peers(h) in s.coordinator.admitted :: !NotHeard(s, h))
  }

  /** What the invariants of single offers say of a manifest. */
  ghost predicate SheetIsNew(s: System, h: nat) {
    var sheets := Sheets(s.toCoordinator);
    && (NotSent(s, h) ==> NotHeard(s, h) && h !in sheets)
    && (RecordOf(s, Peers(h)).owner.phase.Absent? ==> NotHeard(s, h) && h !in sheets)
    && (h in sheets ==> NotHeard(s, h))
    && (sheets != [] && sheets[0] == h ==> h !in sheets[1..])
  }

  datatype News = NoNews | Made(h: nat) | Announced(h: nat) | Learned(h: nat)

  /** What a step tells of the connecting peer's offers. */
  ghost predicate Tells(s: System, s': System, news: News) {
    var sheets, sheets' := Sheets(s.toCoordinator), Sheets(s'.toCoordinator);
    var made, made', taken, taken' := s.peer.admitted, s'.peer.admitted, s.coordinator.admitted, s'.coordinator.admitted;
    match news
    case NoNews =>
      && (forall h: nat :: NotSent(s', h) == NotSent(s, h) && NotHeard(s', h) == NotHeard(s, h)) && sheets' == sheets
      && (taken' == taken || exists x :: taken' == taken + [Own(x)])
      && (made' == made || exists y :: made' == made + [Peers(y)])
    case Made(h) =>
      && (forall w: nat :: NotSent(s', w) == (NotSent(s, w) || w == h) && NotHeard(s', w) == NotHeard(s, w)) && sheets' == sheets
      && taken' == taken && made' == made + [Own(h)] && RecordOf(s, Peers(h)).owner.phase.Absent? && Own(h) !in made
    case Announced(h) =>
      && (forall w: nat :: NotSent(s', w) == (NotSent(s, w) && w != h) && NotHeard(s', w) == NotHeard(s, w)) && sheets' == sheets + [h]
      && taken' == taken && made' == made && NotSent(s, h) && HasTurn(s, Peers(h))
    case Learned(h) =>
      && (forall w: nat :: NotSent(s', w) == NotSent(s, w) && NotHeard(s', w) == (NotHeard(s, w) && w != h))
      && sheets != [] && sheets[0] == h && sheets' == sheets[1..]
      && (taken' == taken || taken' == taken + [Peers(h)]) && made' == made
  }

  lemma NoNewsKeepsOrder(s: System, s': System)
    requires Ordered(s) && Tells(s, s', NoNews)
    ensures Ordered(s')
  {
    hide Precedes;
    forall x: nat, y: nat | Precedes(s'.peer.admitted, Own(x), Own(y)) ensures x != y && Ahead(s', x, y) {
      if made :| s'.peer.admitted == s.peer.admitted + [Peers(made)] {
        PrecedesPush(s.peer.admitted, Peers(made), Own(x), Own(y));
      }
      if taken :| s'.coordinator.admitted == s.coordinator.admitted + [Own(taken)] {
        PrecedesPush(s.coordinator.admitted, Own(taken), Peers(y), Peers(x));
      }
      assert Ahead(s, x, y);
    }
  }

  lemma MadeKeepsOrder(s: System, s': System, h: nat)
    requires Ordered(s) && Tells(s, s', Made(h)) && forall w: nat :: SheetIsNew(s, w)
    ensures Ordered(s')
  {
    hide Precedes;
    forall x: nat, y: nat | Precedes(s'.peer.admitted, Own(x), Own(y)) ensures x != y && Ahead(s', x, y) {
      PrecedesPush(s.peer.admitted, Own(h), Own(x), Own(y));
      assert SheetIsNew(s, h);
      if y == h {
        NotAmong(s.coordinator.admitted, Peers(h), Peers(x));
        NotAmong(Sheets(s.toCoordinator), h, x);
      } else {
        assert Ahead(s, x, y);
      }
      if x == h {
        NotAmong(s.peer.admitted, Own(h), Own(y));
      }
    }
  }

  lemma NotAmong<T>(s: seq<T>, a: T, b: T)
    requires a !in s
    ensures !Precedes(s, a, b) && !Precedes(s, b, a)
  {
  }

  lemma AnnouncedKeepsOrder(s: System, s': System, h: nat)
    requires Ordered(s) && Tells(s, s', Announced(h)) && forall w: nat :: SheetIsNew(s, w)
    ensures Ordered(s')
  {
    hide Precedes;
    var sheets := Sheets(s.toCoordinator);
    forall x: nat, y: nat | Precedes(s'.peer.admitted, Own(x), Own(y)) ensures x != y && Ahead(s', x, y) {
      assert Ahead(s, x, y) && SheetIsNew(s, h) && SheetIsNew(s, y);
      PrecedesPush(sheets, h, y, x);
      if y == h {
        EarlierIsSent(s, x, h);
      }
      NotAmong(sheets, h, x);
      NotAmong(sheets, h, y);
    }
  }

  /** Those made before the one whose turn it is have been sent. */
  lemma EarlierIsSent(s: System, x: nat, h: nat)
    requires Ordered(s) && HasTurn(s, Peers(h)) && Precedes(s.peer.admitted, Own(x), Own(h))
    ensures !NotSent(s, x)
  {
    var made := s.peer.admitted;
    var j :| 0 <= j < |made| && made[j] == Own(h) && forall i | 0 <= i < j && made[i].Own? :: !RecordOf(s, Peers(made[i].handle)).owner.phase.Created?;
    var i, k :| 0 <= i < k < |made| && made[i] == Own(x) && made[k] == Own(h);
    if i > j {
      assert Precedes(made, Own(h), Own(h));
    }
  }

  lemma LearnedKeepsOrder(s: System, s': System, h: nat)
    requires Ordered(s) && Tells(s, s', Learned(h)) && forall w: nat :: SheetIsNew(s, w)
    ensures Ordered(s')
  {
    hide Precedes;
    var sheets := Sheets(s.toCoordinator);
    assert SheetIsNew(s, h);
    forall x: nat, y: nat | Precedes(s'.peer.admitted, Own(x), Own(y)) ensures x != y && Ahead(s', x, y) {
      assert Ahead(s, x, y);
      if s'.coordinator.admitted != s.coordinator.admitted {
        PrecedesPush(s.coordinator.admitted, Peers(h), Peers(y), Peers(x));
      }
      if Precedes(sheets[1..], y, x) {
        PrecedesInTail(sheets, y, x);
      }
      if y == h && x in sheets[1..] {
        HeadPrecedes(sheets, x);
      }
    }
  }

  lemma HeadPrecedes(sheets: seq<nat>, x: nat)
    requires sheets != [] && x in sheets[1..]
    ensures Precedes(sheets, sheets[0], x)
  {
    var i :| 0 <= i < |sheets[1..]| && sheets[1..][i] == x;
    assert sheets[i + 1] == x;
  }

  // ---- what each action tells ----

  lemma SheetsAreNew(files: Offered -> nat, s: System, h: nat)
    requires More(files, s) && !s.broken
    ensures SheetIsNew(s, h)
  {
    hide More, OfferMore, Of, Sheets;
    MoreOf(files, s, Peers(h));
    SheetsAreManifests(s.toCoordinator, h);
    var sheets := Sheets(s.toCoordinator);
    if sheets != [] && sheets[0] == h {
      FirstSheetIsOnly(s, h);
    }
  }

  lemma FirstSheetIsOnly(s: System, h: nat)
    requires Introduced(RecordOf(s, Peers(h)), Forth(s, Peers(h)))
    requires Sheets(s.toCoordinator) != [] && Sheets(s.toCoordinator)[0] == h
    ensures h !in Sheets(s.toCoordinator)[1..]
  {
    OnlyFirst(s.toCoordinator, h);
  }

  ghost predicate ComesOnce(frames: seq<Frame>) { forall i, j | 0 <= i < j < |frames| && frames[i].Manifest? :: !frames[j].Manifest? }

  lemma {:induction false} OnlyFirst(wire: seq<Sent>, h: nat)
    requires ComesOnce(Of(wire, Peers(h))) && Sheets(wire) != [] && Sheets(wire)[0] == h
    ensures h !in Sheets(wire)[1..]
  {
    var rest := Of(wire[1..], Peers(h));
    if wire[0].offer == Peers(h) {
      TailComesOnce(wire[0].frame, rest);
    } else {
      assert Of(wire, Peers(h)) == rest;
    }
    if SheetOf(wire[0]) == [] {
      OnlyFirst(wire[1..], h);
    } else {
      SheetsAreManifests(wire[1..], h);
    }
  }

  lemma TailComesOnce(frame: Frame, rest: seq<Frame>)
    requires ComesOnce([frame] + rest)
    ensures ComesOnce(rest) && (frame.Manifest? ==> Manifest !in rest)
  {
    var frames := [frame] + rest;
    assert frames[0] == frame && forall i | 0 <= i < |rest| :: frames[i + 1] == rest[i];
    forall i, j | 0 <= i < j < |rest| && rest[i].Manifest? ensures !rest[j].Manifest? {
      assert frames[i + 1].Manifest? && !frames[j + 1].Manifest?;
    }
  }

  lemma AdmissionsAfter(run: Run, op: Option<Op>)
    ensures var before, after := run.admitted, RunAfter(run, op).admitted;
            match op
            case Some(SubmitOp(x)) => after == before || after == before + [Own(x)]
            case Some(ReceiveOp(y)) => after == before || after == before + [Peers(y)]
            case _ => after == before
  {
  }

  lemma SubmitIsAdmitted(run: Run, x: nat)
    requires Takes(run.slots)
    ensures RunAfter(run, Some(SubmitOp(x))).admitted == run.admitted + [Own(x)]
  {
    hide TakeCoordinatorOffer;
  }

  /** The offers and the wires after a step. */
  lemma WiresAfter(t: System, z: Offered, e: Effects)
    requires !e.broken
    ensures var s' := OneOffer.Apply(t, z, e);
            && (forall w :: RecordOf(s', w) == if w == z then e.record else RecordOf(t, w))
            && Sheets(s'.toCoordinator) == Sheets(t.toCoordinator) + (if z.Peers? && e.forth == Some(Manifest) then [z.handle] else [])
            && s'.peer == RunAfter(t.peer, if z.Own? then e.receiver else e.owner)
            && s'.coordinator == RunAfter(t.coordinator, if z.Own? then e.owner else e.receiver)
  {
    hide Sheets, RunAfter;
    SheetsAppend(t.toCoordinator, z, if z.Own? then e.back else e.forth);
  }

  lemma NewOfferTells(files: Offered -> nat, s: System, z: Offered) returns (news: News)
    requires Admitted(s) && RecordOf(s, z).owner.phase.Absent? && Takes(OwnerSlots(s, z))
    ensures Tells(s, OneOffer.Apply(s, z, AtOwner(Submitted(RecordOf(s, z), files(z)), SubmitOp(z.handle))), news)
  {
    hide Sheets, RunAfter, OneOffer.Apply, Takes, FilesBelow, LinedUp;
    var e := AtOwner(Submitted(RecordOf(s, z), files(z)), SubmitOp(z.handle));
    WiresAfter(s, z, e);
    AdmissionsAfter(s.peer, None);
    AdmissionsAfter(s.coordinator, None);
    SubmitIsAdmitted(OwnerRun(s, z), z.handle);
    news := if z.Own? then NoNews else Made(z.handle);
  }

  lemma MoveTells(files: Offered -> nat, s: System, z: Offered, m: Move) returns (news: News)
    requires CanMove(files(z), RecordOf(s, z), PlacesOf(s, z), m)
    ensures Tells(s, OneOffer.Apply(s, z, Moved(z, RecordOf(s, z), m)), news)
  {
    hide Sheets, RunAfter, OneOffer.Apply, HasTurn;
    var e := Moved(z, RecordOf(s, z), m);
    WiresAfter(s, z, e);
    AdmissionsAfter(s.peer, if z.Own? then e.receiver else e.owner);
    AdmissionsAfter(s.coordinator, if z.Own? then e.owner else e.receiver);
    news := if z.Peers? && m.SendManifest? then Announced(z.handle) else NoNews;
  }

  lemma CancelTells(s: System, z: Offered, owner: bool) returns (news: News)
    ensures Tells(s, OneOffer.Apply(s, z, Just(CancelPicked(RecordOf(s, z), owner))), news)
  {
    hide Sheets, OneOffer.Apply;
    WiresAfter(s, z, Just(CancelPicked(RecordOf(s, z), owner)));
    news := NoNews;
  }

  lemma HeededSendsNothing(r: Record, p: Places, frame: Frame)
    ensures var e := Heeded(r, p, frame);
            e.forth == None && e.back == None && e.owner == None && e.receiver == None
            && e.record.taker == r.taker && e.record.owner.phase == r.owner.phase
  {
  }

  /** A frame that reaches its offer's owner. */
  lemma HeededTells(s: System, t: System, toCoordinator: bool)
    requires Taken(s, t, toCoordinator) && GoesToOwner(toCoordinator, Head(s, toCoordinator).offer)
    requires !Arrived(s, Head(s, toCoordinator), toCoordinator).broken
    ensures var sent := Head(s, toCoordinator); Tells(s, OneOffer.Apply(t, sent.offer, Arrived(s, sent, toCoordinator)), NoNews)
  {
    hide RunAfter, OneOffer.Apply, PlacesOf, Heeded, Sheets;
    var sent := Head(s, toCoordinator);
    var z, e := sent.offer, Arrived(s, sent, toCoordinator);
    HeededSendsNothing(RecordOf(s, z), PlacesOf(s, z), sent.frame);
    if toCoordinator {
      FirstSheet(s.toCoordinator);
    }
    WiresAfter(t, z, e);
    AdmissionsAfter(t.peer, None);
    AdmissionsAfter(t.coordinator, None);
  }

  /** A frame of the accepting peer's offer that reaches the connecting peer. */
  lemma OwnHeardTells(s: System, t: System)
    requires Taken(s, t, false) && s.toPeer[0].offer.Own? && !Arrived(s, s.toPeer[0], false).broken
    ensures Tells(s, OneOffer.Apply(t, s.toPeer[0].offer, Arrived(s, s.toPeer[0], false)), NoNews)
  {
    hide RunAfter, OneOffer.Apply, PlacesOf, Sheets;
    var z, e := s.toPeer[0].offer, Arrived(s, s.toPeer[0], false);
    WiresAfter(t, z, e);
    AdmissionsAfter(t.peer, e.receiver);
    AdmissionsAfter(t.coordinator, None);
  }

  /** And the other way: a manifest is news. */
  lemma PeersHeardTells(s: System, t: System)
    requires Taken(s, t, true) && s.toCoordinator[0].offer.Peers? && !Arrived(s, s.toCoordinator[0], true).broken
    ensures var sent := s.toCoordinator[0];
            Tells(s, OneOffer.Apply(t, sent.offer, Arrived(s, sent, true)), if sent.frame.Manifest? then Learned(sent.offer.handle) else NoNews)
  {
    hide RunAfter, OneOffer.Apply, PlacesOf, Sheets;
    var z, e := s.toCoordinator[0].offer, Arrived(s, s.toCoordinator[0], true);
    FirstSheet(s.toCoordinator);
    WiresAfter(t, z, e);
    AdmissionsAfter(t.peer, None);
    AdmissionsAfter(t.coordinator, e.receiver);
  }

  lemma FirstSheet(wire: seq<Sent>)
    requires wire != []
    ensures Sheets(wire) == SheetOf(wire[0]) + Sheets(wire[1..])
  {
  }

  lemma NextKeepsOrder(files: Offered -> nat, s: System, a: Action)
    requires More(files, s) && Admitted(s) && !s.broken && !Next(files, s, a).broken && Ordered(s)
    ensures Ordered(Next(files, s, a))
  {
    hide More, Admitted, Ordered, Tells, Next, StepOf, Taking, SheetIsNew;
    NextTakes(files, s, a);
    NoStepIsTaken(s);
    if StepOf(files, s, a).Some? {
      var news := StepTells(files, s, a);
      NewsKeepsOrder(files, s, Next(files, s, a), news);
    }
  }

  lemma StepTells(files: Offered -> nat, s: System, a: Action) returns (news: News)
    requires Admitted(s) && !s.broken && StepOf(files, s, a).Some? && !Taking(s, StepOf(files, s, a)).broken
    ensures Tells(s, Taking(s, StepOf(files, s, a)), news)
  {
    hide Admitted, Tells, Moved, CanMove, Arrived, OneOffer.Apply, Picked, CanDeliver, FilesBelow;
    BrokenEffects(StepOf(files, s, a).value);
    match a
    case NewOffer(z) => news := NewOfferTells(files, s, z);
    case OfferMove(z, m) => news := MoveTells(files, s, z, m);
    case CancelCommand(atCoordinator) => news := CancelTells(s, Picked(s, atCoordinator).value, atCoordinator == Picked(s, atCoordinator).value.Own?);
    case DeliverToPeer =>
      var t := s.(toPeer := s.toPeer[1..]);
      if s.toPeer[0].offer.Own? {
        OwnHeardTells(s, t);
      } else {
        HeededTells(s, t, false);
      }
      news := NoNews;
    case DeliverToCoordinator =>
      var t, sent := s.(toCoordinator := s.toCoordinator[1..]), s.toCoordinator[0];
      if sent.offer.Own? {
        HeededTells(s, t, true);
        news := NoNews;
      } else {
        PeersHeardTells(s, t);
        news := if sent.frame.Manifest? then Learned(sent.offer.handle) else NoNews;
      }
  }

  lemma BrokenEffects(step: Step)
    ensures step.effects.broken ==> OneOffer.Apply(step.from, step.offer, step.effects).broken
  {
  }

  lemma NewsKeepsOrder(files: Offered -> nat, s: System, s': System, news: News)
    requires More(files, s) && !s.broken && Ordered(s) && Tells(s, s', news)
    ensures Ordered(s')
  {
    hide More, Ordered, Tells, SheetIsNew;
    forall h: nat ensures SheetIsNew(s, h) {
      SheetsAreNew(files, s, h);
    }
    match news
    case NoNews => NoNewsKeepsOrder(s, s');
    case Made(h) => MadeKeepsOrder(s, s', h);
    case Announced(h) => AnnouncedKeepsOrder(s, s', h);
    case Learned(h) => LearnedKeepsOrder(s, s', h);
  }

  // ---- the queues ----

  /** Without overtaking, the connecting peer's slot and queue are in the order of making. */
  ghost predicate QueueInOrder(run: Run) {
    var outgoing, queue := run.slots.outgoing, run.slots.outgoingQueue;
    && (outgoing.Some? ==> forall i | 0 <= i < |queue| :: Precedes(run.admitted, Own(outgoing.value), Own(queue[i])))
    && (forall i, j | 0 <= i < j < |queue| :: Precedes(run.admitted, Own(queue[i]), Own(queue[j])))
  }

  lemma QueueStaysInOrder(run: Run, op: Option<Op>)
    requires LinedUp(run) && QueueInOrder(run) && (op.Some? ==> !ConnectingPeer.Overtakes(run, op.value))
    ensures QueueInOrder(RunAfter(run, op))
  {
    hide TakeCoordinatorOffer, Precedes;
    AdmissionsAfter(run, op);
    var before, after := run.admitted, RunAfter(run, op).admitted;
    if after != before {
      forall a, b | Precedes(before, a, b) ensures Precedes(after, a, b) {
        PrecedesPush(before, after[|before|], a, b);
      }
      forall a | a in before ensures Precedes(after, a, after[|before|]) {
        PrecedesPush(before, after[|before|], a, after[|before|]);
      }
    }
  }

  /** Offers of the connecting peer that wait for their review are in the queue or in the
      slot of the accepting peer. */
  ghost predicate PendingIsQueued(s: System) {
    forall h: nat | RecordOf(s, Peers(h)).taker.status.Pending? :: Queued(s.coordinator.slots, h)
  }

  ghost predicate Queued(slots: Slots, h: nat) { Peers(h) in slots.coordinatorQueue || slots.incoming == Some(h) }

  lemma TakenStaysQueued(slots: Slots, h: nat)
    requires Queued(slots, h) && (slots.coordinatorActive || slots.incoming == None)
    ensures Queued(TakeCoordinatorOffer(slots), h)
  {
    var queue := slots.coordinatorQueue;
    assert queue != [] ==> queue == [queue[0]] + queue[1..];
  }

  lemma StaysQueued(slots: Slots, op: Option<Op>, h: nat)
    requires slots.role == Inbound && OneSlot(slots) && Queued(slots, h) && op != Some(ClearOp(Peers(h)))
    ensures Queued(SlotsAfter(slots, op), h)
  {
    hide TakeCoordinatorOffer;
    match op
    case Some(SubmitOp(x)) => TakenStaysQueued(Enqueued(slots, Own(x)), h);
    case Some(ReceiveOp(y)) => TakenStaysQueued(Enqueued(slots, Peers(y)), h);
    case Some(ClearOp(o)) =>
      if InSlot(slots, o) {
        var idle := slots.(incoming := None, outgoing := None, transferring := None, coordinatorActive := false);
        TakenStaysQueued(idle, h);
      }
    case _ =>
  }

  lemma ReceivedIsQueued(slots: Slots, h: nat)
    requires slots.role == Inbound && OneSlot(slots) && |slots.coordinatorQueue| < MAX_QUEUED_OFFERS
    ensures Queued(SlotsAfter(slots, Some(ReceiveOp(h))), h)
  {
    hide TakeCoordinatorOffer;
    var queued := Enqueued(slots, Peers(h));
    assert queued.coordinatorQueue[|slots.coordinatorQueue|] == Peers(h);
    TakenStaysQueued(queued, h);
  }

  lemma NextKeepsPending(files: Offered -> nat, s: System, a: Action)
    requires More(files, s) && !s.broken && !Next(files, s, a).broken && PendingIsQueued(s)
    ensures PendingIsQueued(Next(files, s, a))
  {
    hide More, Next, StepOf, Taking, Lasts, OwnerStep, ReceiverStep, RunAfter, SlotsAfter, Queued, OneSlot;
    NextTakes(files, s, a);
    NoStepIsTaken(s);
    if StepOf(files, s, a).Some? {
      var step, s' := StepOf(files, s, a).value, Next(files, s, a);
      MoreIsSane(files, s, step.offer);
      StepIsProper(files, s, a);
      AfterStep(s, step);
      NoCancelOps(s, step);
      RunHasSlots(s.coordinator, CoordinatorOp(step));
      forall h: nat | RecordOf(s', Peers(h)).taker.status.Pending? ensures Queued(s'.coordinator.slots, h) {
        PendingStaysQueued(s, step, h);
      }
    }
  }

  lemma PendingStaysQueued(s: System, step: Step, h: nat)
    requires PendingIsQueued(s) && ProperStep(s, step) && !step.effects.broken && s.coordinator.slots.role == Inbound && OneSlot(s.coordinator.slots)
    requires (if step.offer == Peers(h) then step.effects.record else RecordOf(s, Peers(h))).taker.status.Pending?
    ensures Queued(SlotsAfter(s.coordinator.slots, CoordinatorOp(step)), h)
  {
    hide Queued, SlotsAfter, Lasts;
    if step.offer == Peers(h) && step.effects.receiver.Some? {
      ReceivedIsQueued(s.coordinator.slots, h);
    } else {
      StaysQueued(s.coordinator.slots, CoordinatorOp(step), h);
    }
  }

  // ---- runs without overtaking ----

  /** The connecting peer's user sends an offer, which takes a slot others wait for. */
  predicate Jumps(s: System, a: Action) {
    && !s.broken && a.NewOffer? && a.z.Peers? && RecordOf(s, a.z).owner.phase.Absent?
    && ConnectingPeer.Overtakes(s.peer, SubmitOp(a.z.handle))
  }

  predicate NobodyJumps(files: Offered -> nat, s: System, actions: seq<Action>)
    decreases |actions|
  {
    actions == [] || (!Jumps(s, actions[0]) && NobodyJumps(files, Next(files, s, actions[0]), actions[1..]))
  }

  ghost predicate InLine(files: Offered -> nat, s: System) {
    && Regular(files, s)
    && (!s.broken ==> Ordered(s) && QueueInOrder(s.peer) && PendingIsQueued(s) && Serial(s.coordinator))
  }

  lemma SubmitsAreNewOffers(files: Offered -> nat, s: System, a: Action, op: Op)
    requires StepOf(files, s, a).Some? && PeerOp(StepOf(files, s, a).value) == Some(op) && op.SubmitOp? && s.peer.slots.role == Outbound
    ensures a.NewOffer? && a.z == Peers(op.x) && RecordOf(s, a.z).owner.phase.Absent?
  {
    hide FilesBelow, CanDeliver, Picked;
  }

  lemma NextKeepsQueue(files: Offered -> nat, s: System, a: Action)
    requires !s.broken && !Next(files, s, a).broken && !Jumps(s, a) && LinedUp(s.peer) && QueueInOrder(s.peer) && Serial(s.coordinator)
    ensures QueueInOrder(Next(files, s, a).peer) && Serial(Next(files, s, a).coordinator)
  {
    hide Next, StepOf, Taking, Lasts, OwnerStep, ReceiverStep, RunAfter, QueueInOrder, Serial;
    NextTakes(files, s, a);
    NoStepIsTaken(s);
    if StepOf(files, s, a).Some? {
      var step := StepOf(files, s, a).value;
      StepIsProper(files, s, a);
      AfterStep(s, step);
      RunStaysSerial(s.coordinator, CoordinatorOp(step));
      if PeerOp(step).Some? && PeerOp(step).value.SubmitOp? {
        SubmitsAreNewOffers(files, s, a, PeerOp(step).value);
      }
      QueueStaysInOrder(s.peer, PeerOp(step));
    }
  }

  lemma RunStaysSerial(run: Run, op: Option<Op>)
    requires Serial(run)
    ensures Serial(RunAfter(run, op))
  {
    hide Serial;
    if op.Some? {
      ApplyKeepsSerial(run, op.value);
    }
  }

  lemma NextStaysInLine(files: Offered -> nat, s: System, a: Action)
    requires InLine(files, s) && !Jumps(s, a)
    ensures InLine(files, Next(files, s, a))
  {
    hide More, LinedUp, Ordered, QueueInOrder, PendingIsQueued, Serial, Tidy, Jumps, Next;
    NextStaysRegular(files, s, a);
    BrokenStaysBroken(files, s, a);
    if !Next(files, s, a).broken {
      NextKeepsOrder(files, s, a);
      NextKeepsPending(files, s, a);
      NextKeepsQueue(files, s, a);
    }
  }

  lemma BrokenStaysBroken(files: Offered -> nat, s: System, a: Action)
    ensures s.broken ==> Next(files, s, a).broken
  {
  }

  lemma {:induction false} RunStaysInLine(files: Offered -> nat, s: System, actions: seq<Action>)
    requires InLine(files, s) && NobodyJumps(files, s, actions)
    ensures InLine(files, After(files, s, actions))
    decreases |actions|
  {
    hide InLine, Next, Jumps;
    if actions != [] {
      NextStaysInLine(files, s, actions[0]);
      RunStaysInLine(files, Next(files, s, actions[0]), actions[1..]);
    }
  }

  lemma StartIsInLine(files: Offered -> nat)
    ensures InLine(files, Start())
  {
    hide Regular;
    StartIsRegular(files);
  }

  /** An offer pending in the queue cannot have been made before the one being served. */
  lemma NobodyIsBlocked(files: Offered -> nat, s: System, z: Offered)
    requires InLine(files, s) && !s.broken
    ensures !Blocked(s, z)
  {
    hide More, Admitted, Ordered, Precedes;
    if Blocked(s, z) {
      var b, d := z.handle, s.peer.slots.outgoing.value;
      var queue, taken := s.peer.slots.outgoingQueue, s.coordinator.admitted;
      assert b in queue;
      assert Precedes(s.peer.admitted, Own(d), Own(b));
      StaysAhead(s, d, b);
      assert Queued(s.coordinator.slots, d);
      PrecedesInQueue(s.coordinator.started, s.coordinator.slots.coordinatorQueue, Peers(d));
      assert false;
    }
  }

  lemma StaysAhead(s: System, x: nat, y: nat)
    requires Ordered(s) && Precedes(s.peer.admitted, Own(x), Own(y))
    ensures !Precedes(s.coordinator.admitted, Peers(y), Peers(x))
  {
    assert Ahead(s, x, y);
  }

  lemma PrecedesInQueue(started: seq<Offered>, queue: seq<Offered>, o: Offered)
    requires started != [] && o in queue
    ensures Precedes(started + queue, started[|started| - 1], o)
  {
    var i :| 0 <= i < |queue| && queue[i] == o;
    assert (started + queue)[|started| - 1] == started[|started| - 1] && (started + queue)[|started| + i] == o;
  }

  // ---- runs without early cancels ----

  /** The connecting peer's user cancels, and it picks an own offer nobody has accepted. */
  ghost predicate FlagsEarly(s: System, a: Action) {
    && !s.broken && a == CancelCommand(false) && Picked(s, false).Some?
    && Picked(s, false).value.Peers? && !RecordOf(s, Picked(s, false).value).taker.accepted
  }

  ghost predicate NobodyFlagsEarly(files: Offered -> nat, s: System, actions: seq<Action>)
    decreases |actions|
  {
    actions == [] || (!FlagsEarly(s, actions[0]) && NobodyFlagsEarly(files, Next(files, s, actions[0]), actions[1..]))
  }

  ghost predicate FlagsAreArmed(s: System) { forall z :: RecordOf(s, z).owner.canceled ==> RecordOf(s, z).owner.armed }

  lemma NextKeepsArmed(files: Offered -> nat, s: System, a: Action)
    requires More(files, s) && !s.broken && FlagsAreArmed(s) && !FlagsEarly(s, a)
    ensures FlagsAreArmed(Next(files, s, a))
  {
    hide More, Next, StepOf, Taking, OwnerStep, ReceiverStep, RunAfter, Picked;
    NextTakes(files, s, a);
    NoStepIsTaken(s);
    if StepOf(files, s, a).Some? {
      StepIsProper(files, s, a);
      AfterStep(s, StepOf(files, s, a).value);
      if a.CancelCommand? {
        CancelArms(files, s, a);
      } else {
        StepArms(files, s, a);
      }
    }
  }

  lemma CancelArms(files: Offered -> nat, s: System, a: Action)
    requires More(files, s) && !s.broken && FlagsAreArmed(s) && !FlagsEarly(s, a) && a.CancelCommand? && StepOf(files, s, a).Some?
    ensures var o' := StepOf(files, s, a).value.effects.record.owner; o'.canceled ==> o'.armed
  {
    hide More, Picked;
    PickedIsAccepted(files, s, a.atCoordinator);
  }

  lemma StepArms(files: Offered -> nat, s: System, a: Action)
    requires FlagsAreArmed(s) && StepOf(files, s, a).Some? && !a.CancelCommand?
    ensures var o' := StepOf(files, s, a).value.effects.record.owner; o'.canceled ==> o'.armed
  {
    hide FilesBelow, CanMove, CanDeliver, PlacesOf;
  }

  ghost predicate Armed(files: Offered -> nat, s: System) { More(files, s) && (!s.broken ==> FlagsAreArmed(s)) }

  lemma {:induction false} RunKeepsArmed(files: Offered -> nat, s: System, actions: seq<Action>)
    requires Armed(files, s) && NobodyFlagsEarly(files, s, actions)
    ensures Armed(files, After(files, s, actions))
    decreases |actions|
  {
    hide More, Next, FlagsEarly, FlagsAreArmed;
    if actions != [] {
      NextKeepsMore(files, s, actions[0]);
      BrokenStaysBroken(files, s, actions[0]);
      if !s.broken {
        NextKeepsArmed(files, s, actions[0]);
      }
      RunKeepsArmed(files, Next(files, s, actions[0]), actions[1..]);
    }
  }

  // ---- the main results ----

  lemma OrderlyOffersEnd(files: Offered -> nat, s: System, z: Offered)
    requires InLine(files, s) && AtRest(files, s) && RecordOf(s, z).taker.accepted
    ensures Ended(RecordOf(s, z)) <==> !FlaggedEarly(s, z)
    ensures Armed(files, s) ==> Ended(RecordOf(s, z))
  {
    hide AtRest, Blocked, More, Ordered, QueueInOrder, PendingIsQueued, Serial;
    RestIsUnbroken(files, s);
    NobodyIsBlocked(files, s, z);
    RestedOfferEndsOrBlocks(files, s, z);
  }

  lemma StartIsArmed(files: Offered -> nat)
    ensures Armed(files, Start())
  {
    hide More;
    StartHasMore(files);
  }

  /** In every run without overtaking that has come to rest, an accepted offer has ended
      unless it was flagged early. */
  lemma AcceptedOffersEndInOrder(files: Offered -> nat, actions: seq<Action>, z: Offered)
    requires NobodyJumps(files, Start(), actions)
    requires AtRest(files, After(files, Start(), actions)) && RecordOf(After(files, Start(), actions), z).taker.accepted
    ensures var s := After(files, Start(), actions); Ended(RecordOf(s, z)) <==> !FlaggedEarly(s, z)
  {
    hide After, AtRest, InLine, Armed;
    StartIsInLine(files);
    RunStaysInLine(files, Start(), actions);
    OrderlyOffersEnd(files, After(files, Start(), actions), z);
  }

  /** And every accepted offer has, if moreover nobody cancels an offer that has not been
      accepted: such a run can go on for as long as an accepted offer has not ended. */
  lemma AcceptedOffersEnd(files: Offered -> nat, actions: seq<Action>, z: Offered)
    requires NobodyJumps(files, Start(), actions) && NobodyFlagsEarly(files, Start(), actions)
    requires AtRest(files, After(files, Start(), actions)) && RecordOf(After(files, Start(), actions), z).taker.accepted
    ensures Ended(RecordOf(After(files, Start(), actions), z))
  {
    hide After, AtRest, InLine, Armed;
    StartIsInLine(files);
    RunStaysInLine(files, Start(), actions);
    StartIsArmed(files);
    RunKeepsArmed(files, Start(), actions);
    OrderlyOffersEnd(files, After(files, Start(), actions), z);
  }
}
