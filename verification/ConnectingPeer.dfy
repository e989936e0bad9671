/** The peer that opened the connection: what its slots promise, and what they do not. */
module ConnectingPeer {
  import opened Names
  import opened Coordinator

  // ---- which offer a cancel command misses ----

  lemma FirstObserved(w: Watch, op: Op, w': Watch, rest: seq<Op>)
    requires Observe(w, op) == w'
    ensures ObserveAll(w, [op] + rest) == ObserveAll(w', rest)
  {
    assert ([op] + rest)[1..] == rest;
  }

  /** The other peer's offer `y` is accepted here, and an own one waits. */
  function Busy(x: nat, y: nat): Watch {
    Watch(Run(NoOffers(Outbound).(incoming := Some(y), outgoing := Some(x), transferring := Some(Peers(y))),
              [Peers(y), Own(x)], [Peers(y), Own(x)], 0),
          Some(Peers(y)), false)
  }

  /** Receive an offer, accept it, send one. */
  lemma BusyIsReached(x: nat, y: nat, rest: seq<Op>)
    ensures ObserveAll(FirstWatch(Outbound), [ReceiveOp(y)] + ([TransferOp(Peers(y))] + ([SubmitOp(x)] + rest)))
         == ObserveAll(Busy(x, y), rest)
  {
    hide ObserveAll;
    var received := NoOffers(Outbound).(incoming := Some(y));
    var w1 := Watch(Run(received, [Peers(y)], [Peers(y)], 0), None, false);
    var w2 := Watch(Run(received.(transferring := Some(Peers(y))), [Peers(y)], [Peers(y)], 0), Some(Peers(y)), false);
    FirstObserved(FirstWatch(Outbound), ReceiveOp(y), w1, [TransferOp(Peers(y))] + ([SubmitOp(x)] + rest));
    FirstObserved(w1, TransferOp(Peers(y)), w2, [SubmitOp(x)] + rest);
    assert [Peers(y)] + [Own(x)] == [Peers(y), Own(x)];
    FirstObserved(w2, SubmitOp(x), Busy(x, y), rest);
  }

  /** The transfer is missed while an own offer waits. */
  lemma CancelCanPickAWaitingOffer(x: nat, y: nat)
    ensures exists ops :: var w := ObserveAll(FirstWatch(Outbound), ops);
                          w.moving == Some(Peers(y)) && CancelTarget(w.run.slots) == Some(Own(x))
  {
    BusyIsReached(x, y, []);
    assert ObserveAll(Busy(x, y), []) == Busy(x, y);
  }

  /** Nothing is picked once an own offer has ended during the transfer. */
  lemma CancelCanPickNothing(x: nat, y: nat)
    ensures exists ops :: var w := ObserveAll(FirstWatch(Outbound), ops);
                          w.moving == Some(Peers(y)) && CancelTarget(w.run.slots) == None && w.run.slots.outgoing == None
  {
    BusyIsReached(x, y, [ClearOp(Own(x))] + []);
    FirstObserved(Busy(x, y), ClearOp(Own(x)), Observe(Busy(x, y), ClearOp(Own(x))), []);
    assert ObserveAll(Observe(Busy(x, y), ClearOp(Own(x))), []) == Observe(Busy(x, y), ClearOp(Own(x)));
  }

  // ---- session order ----

  function Owns(offers: seq<Offered>): seq<nat> {
    if offers == [] then []
    else Owns(offers[..|offers| - 1]) + (if offers[|offers| - 1].Own? then [offers[|offers| - 1].handle] else [])
  }

  lemma OwnsAppend(offers: seq<Offered>, o: Offered)
    ensures Owns(offers + [o]) == Owns(offers) + (if o.Own? then [o.handle] else [])
  {
    assert (offers + [o])[..|offers|] == offers;
  }

  /** Own offers in the order in which they start or are going to. */
  function Line(r: Run): seq<nat> { Owns(r.started) + r.slots.outgoingQueue }

  /** A new offer takes the free slot although others have been waiting for it. */
  predicate Overtakes(r: Run, op: Op) {
    op.SubmitOp? && r.slots.outgoing == None && r.slots.outgoingQueue != []
  }

  predicate NoneOvertakes(r: Run, ops: seq<Op>)
    decreases |ops|
  {
    ops == [] || (!Overtakes(r, ops[0]) && NoneOvertakes(Apply(r, ops[0]), ops[1..]))
  }

  /** Every `send` makes a new offer. */
  ghost predicate FreshSubmits(admitted: seq<nat>, ops: seq<Op>) {
    && (forall i | 0 <= i < |ops| && ops[i].SubmitOp? :: ops[i].x !in admitted)
    && (forall i, j | 0 <= i < j < |ops| && ops[i].SubmitOp? && ops[j].SubmitOp? :: ops[i].x != ops[j].x)
  }

  ghost predicate NoRepeats(s: seq<nat>) { forall i, j | 0 <= i < j < |s| :: s[i] != s[j] }

  /** Some two offers stand in the line the other way round than they were admitted. */
  ghost predicate Swapped(line: seq<nat>, admitted: seq<nat>) {
    exists i, j, k, l | 0 <= i < j < |line| && 0 <= k < l < |admitted| :: line[i] == admitted[l] && line[j] == admitted[k]
  }

  lemma SwappedIsNotEqual(line: seq<nat>, admitted: seq<nat>)
    requires Swapped(line, admitted) && NoRepeats(admitted)
    ensures line != admitted
  {
  }

  /** The line and the admissions grow by the same offer, at the end of the admissions and
      anywhere in the line. */
  lemma GrowingKeepsSwapped(before: seq<nat>, after: seq<nat>, admitted: seq<nat>, line: seq<nat>, x: nat)
    requires Swapped(before + after, admitted) && line == before + [x] + after
    ensures Swapped(line, admitted + [x])
  {
    var whole := before + after;
    var i, j, k, l :| 0 <= i < j < |whole| && 0 <= k < l < |admitted| && whole[i] == admitted[l] && whole[j] == admitted[k];
    var i', j' := if i < |before| then i else i + 1, if j < |before| then j else j + 1;
    assert line[i'] == whole[i] && line[j'] == whole[j];
    assert (admitted + [x])[k] == admitted[k] && (admitted + [x])[l] == admitted[l];
  }

  /** What a step does to the line and to the admissions: nothing, or one new offer. */
  ghost predicate LineStep(r: Run, r': Run, op: Op) {
    && r'.slots.role == Outbound
    && ((Line(r') == Line(r) && Owns(r'.admitted) == Owns(r.admitted))
        || (op.SubmitOp? && Owns(r'.admitted) == Owns(r.admitted) + [op.x]
            && Line(r') == (if r.slots.outgoing == None then Owns(r.started) + [op.x] + r.slots.outgoingQueue
                            else Line(r) + [op.x])))
    && (op.SubmitOp? && r.slots.outgoing == None ==> Owns(r'.admitted) == Owns(r.admitted) + [op.x])
  }

  lemma SubmitStep(r: Run, x: nat)
    requires r.slots.role == Outbound
    ensures LineStep(r, Apply(r, SubmitOp(x)), SubmitOp(x))
  {
    hide Owns;
    OwnsAppend(r.admitted, Own(x));
    OwnsAppend(r.started, Own(x));
    assert r.started + [] == r.started;
    assert Line(r) + [x] == Owns(r.started) + (r.slots.outgoingQueue + [x]);
  }

  lemma ReceiveStep(r: Run, y: nat)
    requires r.slots.role == Outbound
    ensures LineStep(r, Apply(r, ReceiveOp(y)), ReceiveOp(y))
  {
    hide Owns;
    OwnsAppend(r.admitted, Peers(y));
    OwnsAppend(r.started, Peers(y));
    assert r.started + [] == r.started;
  }

  lemma ClearStep(r: Run, o: Offered)
    requires r.slots.role == Outbound
    ensures LineStep(r, Apply(r, ClearOp(o)), ClearOp(o))
  {
    hide Owns;
    assert r.started + [] == r.started;
    if r.slots.outgoingQueue != [] {
      var next := r.slots.outgoingQueue[0];
      OwnsAppend(r.started, Own(next));
      assert Owns(r.started) + [next] + r.slots.outgoingQueue[1..] == Line(r);
    }
  }

  lemma StepOfTheLine(r: Run, op: Op)
    requires r.slots.role == Outbound
    ensures LineStep(r, Apply(r, op), op)
  {
    match op {
      case SubmitOp(x) => SubmitStep(r, x);
      case ReceiveOp(y) => ReceiveStep(r, y);
      case TransferOp(_) =>
      case ClearOp(o) => ClearStep(r, o);
      case CancelOp =>
    }
  }

  ghost predicate SameOffers(line: seq<nat>, admitted: seq<nat>) { forall x :: x in line <==> x in admitted }

  lemma OvertakingSwaps(r: Run, x: nat)
    requires r.slots.role == Outbound && Overtakes(r, SubmitOp(x)) && SameOffers(Line(r), Owns(r.admitted))
    ensures Swapped(Owns(r.started) + [x] + r.slots.outgoingQueue, Owns(r.admitted) + [x])
  {
    var queue, admitted := r.slots.outgoingQueue, Owns(r.admitted);
    var line := Owns(r.started) + [x] + queue;
    assert Line(r)[|Owns(r.started)|] == queue[0];
    assert queue[0] in Line(r) && queue[0] in admitted;
    var k :| 0 <= k < |admitted| && admitted[k] == queue[0];
    assert line[|Owns(r.started)|] == (admitted + [x])[|admitted|];
    assert line[|Owns(r.started)| + 1] == (admitted + [x])[k];
  }

  lemma NextStaysFresh(admitted: seq<nat>, admitted': seq<nat>, ops: seq<Op>)
    requires ops != [] && FreshSubmits(admitted, ops) && NoRepeats(admitted)
    requires admitted' == admitted || (ops[0].SubmitOp? && admitted' == admitted + [ops[0].x])
    ensures FreshSubmits(admitted', ops[1..]) && NoRepeats(admitted')
  {
  }

  lemma {:induction false} LineFollowsAdmissionIff(r: Run, ops: seq<Op>)
    requires r.slots.role == Outbound && SameOffers(Line(r), Owns(r.admitted))
    requires NoRepeats(Owns(r.admitted)) && FreshSubmits(Owns(r.admitted), ops)
    requires Line(r) == Owns(r.admitted) || Swapped(Line(r), Owns(r.admitted))
    ensures var r' := ApplyAll(r, ops);
            Line(r') == Owns(r'.admitted) <==> Line(r) == Owns(r.admitted) && NoneOvertakes(r, ops)
    decreases |ops|
  {
    hide Apply, Swapped, FreshSubmits, NoRepeats;
    if ops == [] {
    } else {
      var op, r' := ops[0], Apply(r, ops[0]);
      StepOfTheLine(r, op);
      NextStaysFresh(Owns(r.admitted), Owns(r'.admitted), ops);
      StepSwapsIff(r, op);
      if Swapped(Line(r), Owns(r.admitted)) {
        SwappedIsNotEqual(Line(r), Owns(r.admitted));
      }
      if Swapped(Line(r'), Owns(r'.admitted)) {
        SwappedIsNotEqual(Line(r'), Owns(r'.admitted));
      }
      LineFollowsAdmissionIff(r', ops[1..]);
    }
  }

  /** One step keeps the order exactly when it does not overtake, and never restores it. */
  lemma StepSwapsIff(r: Run, op: Op)
    requires r.slots.role == Outbound && SameOffers(Line(r), Owns(r.admitted))
    requires Line(r) == Owns(r.admitted) || Swapped(Line(r), Owns(r.admitted))
    ensures var r' := Apply(r, op);
            && SameOffers(Line(r'), Owns(r'.admitted))
            && (Swapped(Line(r), Owns(r.admitted)) || Overtakes(r, op) ==> Swapped(Line(r'), Owns(r'.admitted)))
            && (Line(r) == Owns(r.admitted) && !Overtakes(r, op) ==> Line(r') == Owns(r'.admitted))
  {
    hide Apply, Swapped;
    StepOfTheLine(r, op);
    var r' := Apply(r, op);
    if op.SubmitOp? && Owns(r'.admitted) == Owns(r.admitted) + [op.x] {
      var before := if r.slots.outgoing == None then Owns(r.started) else Line(r);
      var after := if r.slots.outgoing == None then r.slots.outgoingQueue else [];
      assert before + after == Line(r) && before + [op.x] + after == Line(r');
      if Overtakes(r, op) {
        OvertakingSwaps(r, op.x);
      }
      if Swapped(Line(r), Owns(r.admitted)) {
        GrowingKeepsSwapped(before, after, Owns(r.admitted), Line(r'), op.x);
      }
    }
  }

  function FirstOutbound(): Run { Run(NoOffers(Outbound), [], [], 0) }

  /** For every run of the connecting peer: its offers start in the order in which they
      were sent exactly when none was ever sent into a free slot while others waited. */
  lemma SessionOrderIff(ops: seq<Op>)
    requires FreshSubmits([], ops)
    ensures var r := ApplyAll(FirstOutbound(), ops);
            Owns(r.started) + r.slots.outgoingQueue == Owns(r.admitted) <==> NoneOvertakes(FirstOutbound(), ops)
  {
    assert Line(FirstOutbound()) == [] == Owns(FirstOutbound().admitted);
    LineFollowsAdmissionIff(FirstOutbound(), ops);
  }

  /** It does happen: while the peer's offer is in progress the first own offer ends, and
      the next one sent goes ahead of the one that has been waiting. */
  lemma WaitingOffersCanBeOvertaken(a: nat, b: nat, d: nat, y: nat)
    requires a != b && a != d && b != d
    ensures var s := Submit(Submit(NoOffers(Outbound), a).0, b).0;
            var busy := Clear(Receive(s, y).0, Own(a)).0;
            && busy.outgoing == None && busy.outgoingQueue == [b]
            && Submit(busy, d) == (busy.(outgoing := Some(d)), Begin(Own(d)))
  {
    assert [b][..] == [b];
  }
}
