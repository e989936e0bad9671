/** The idle monitor of a session: a loop that looks at the last activity and the
    transfer flag under the state lock, then blocks on a timer or on a wake channel that
    holds one token. Time is a natural number and never runs backwards. */
module Idle {
  /** Warning and expiry, after so much time without activity. */
  datatype Limits = Limits(warning: nat, timeout: nat)

  predicate Valid(limits: Limits) { 0 < limits.warning < limits.timeout }

  /** Where the monitor is: about to look, blocked, or gone. */
  datatype Monitor = Looking | AwaitingWake | Armed(deadline: nat) | Gone

  datatype State = State(
    now: nat,
    lastActivity: nat,
    transferActive: bool,
    warned: bool,
    token: bool,
    stopping: bool,
    monitor: Monitor)

  /** The end of a transfer counts as activity too. */
  datatype Event = Activity | Warning | Expiry | TransferStarted | TransferEnded

  predicate IsActivity(e: Event) { e.Activity? || e.TransferEnded? }

  datatype Stamped = Stamped(event: Event, at: nat)

  datatype Move =
    | Tick(elapsed: nat)
    | Note
    | StartTransfer
    | FinishTransfer
    | Look
    | Wake
    | Fire
    | Close

  predicate Enabled(s: State, m: Move) {
    match m
    case Look => s.monitor.Looking?
    case Wake => (s.monitor.AwaitingWake? || s.monitor.Armed?) && s.token
    case Fire => s.monitor.Armed? && s.now >= s.monitor.deadline
    case Close => s.monitor.AwaitingWake? || s.monitor.Armed?
    case _ => true
  }

  /** When the monitor has to look again, from what it last saw. */
  function Due(limits: Limits, lastActivity: nat, warned: bool): nat {
    lastActivity + (if warned then limits.timeout else limits.warning)
  }

  function Noted(s: State): State { s.(lastActivity := s.now, warned := false, token := true) }

  function Looked(limits: Limits, s: State): State {
    var elapsed := s.now - s.lastActivity;
    if s.stopping then s.(monitor := Gone)
    else if s.transferActive then s.(monitor := AwaitingWake)
    else if elapsed >= limits.timeout then s.(stopping := true, monitor := Gone)
    else if elapsed >= limits.warning && !s.warned then s.(warned := true)
    else s.(monitor := Armed(Due(limits, s.lastActivity, s.warned)))
  }

  function Next(limits: Limits, s: State, m: Move): State {
    if !Enabled(s, m) then s
    else
      match m
      case Tick(elapsed) => s.(now := s.now + elapsed)
      case Note => Noted(s)
      case StartTransfer => s.(transferActive := true, token := true)
      case FinishTransfer => Noted(s.(transferActive := false))
      case Look => Looked(limits, s)
      case Wake => s.(token := false, monitor := Looking)
      case Fire => s.(monitor := Looking)
      case Close => s.(monitor := Gone)
  }

  /** What a step leaves in the log. */
  function Logged(limits: Limits, s: State, m: Move): seq<Stamped> {
    var s' := Next(limits, s, m);
    if m.Note? then [Stamped(Activity, s.now)]
    else if m.FinishTransfer? then [Stamped(TransferEnded, s.now)]
    else if m.StartTransfer? then [Stamped(TransferStarted, s.now)]
    else if s'.warned && !s.warned then [Stamped(Warning, s.now)]
    else if s'.stopping && !s.stopping then [Stamped(Expiry, s.now)]
    else []
  }

  /** `looks` are the times at which the monitor has looked, with no transfer active,
      since the last activity. */
  datatype Run = Run(state: State, log: seq<Stamped>, looks: seq<nat>)

  function Looks(r: Run, m: Move): seq<nat> {
    if m.Note? || m.FinishTransfer? then []
    else if m.Look? && Enabled(r.state, m) && !r.state.stopping && !r.state.transferActive then r.looks + [r.state.now]
    else r.looks
  }

  function Step(limits: Limits, r: Run, m: Move): Run {
    Run(Next(limits, r.state, m), r.log + Logged(limits, r.state, m), Looks(r, m))
  }

  /** The session is verified: that is its first activity. */
  function Start(at: nat): Run {
    Run(State(at, at, false, false, false, false, Looking), [Stamped(Activity, at)], [])
  }

  function After(limits: Limits, r: Run, moves: seq<Move>): Run
    decreases |moves|
  {
    if moves == [] then r else After(limits, Step(limits, r, moves[0]), moves[1..])
  }

  // ---- no lost wake-up ----

  /** A monitor that is blocked with no token pending is blocked on current values. */
  ghost predicate Current(limits: Limits, s: State) {
    !s.token ==>
      && (s.monitor.AwaitingWake? ==> s.transferActive)
      && (s.monitor.Armed? ==> !s.transferActive && s.monitor.deadline == Due(limits, s.lastActivity, s.warned))
  }

  ghost predicate LastActivityAt(log: seq<Stamped>, k: nat, at: nat) {
    && k < |log| && IsActivity(log[k].event) && log[k].at == at
    && forall i | k < i < |log| :: !IsActivity(log[i].event)
  }

  ghost predicate WarnedAfter(log: seq<Stamped>, k: nat) { exists i :: k < i < |log| && log[i].event == Warning }

  ghost predicate Expired(log: seq<Stamped>) { exists i :: 0 <= i < |log| && log[i].event == Expiry }

  /** The log agrees with the state: times never decrease, the last activity logged is
      the last recorded, and a warning stands after it exactly when one was given. */
  ghost predicate Faithful(r: Run) {
    && (forall i | 0 <= i < |r.log| :: r.log[i].at <= r.state.now)
    && r.state.lastActivity <= r.state.now
    && (exists k: nat :: LastActivityAt(r.log, k, r.state.lastActivity) && (r.state.warned <==> WarnedAfter(r.log, k)))
    && (r.state.stopping <==> Expired(r.log))
  }

  /** Two warnings are never without activity between them, and each comes after its due
      time; an expiry comes only after the full time without any activity. */
  ghost predicate WellTimed(limits: Limits, log: seq<Stamped>) {
    && (forall i, j | 0 <= i < j < |log| && IsActivity(log[j].event) :: log[i].at <= log[j].at)
    && (forall i, j | 0 <= i < j < |log| && log[i].event == Warning && log[j].event == Warning :: ActivityBetween(log, i, j))
    && (forall i, j | 0 <= i < j < |log| && IsActivity(log[i].event) && log[j].event == Warning ::
          log[j].at >= log[i].at + limits.warning)
    && (forall i, j | 0 <= i < j < |log| && IsActivity(log[i].event) && log[j].event == Expiry ::
          log[j].at >= log[i].at + limits.timeout)
    && (forall i, j | 0 <= i < j < |log| && log[i].event == Expiry :: log[j].event != Expiry)
  }

  ghost predicate ActivityBetween(log: seq<Stamped>, i: nat, j: nat) {
    exists k :: i < k < j && k < |log| && IsActivity(log[k].event)
  }

  lemma StepKeepsCurrent(limits: Limits, s: State, m: Move)
    requires Current(limits, s)
    ensures Current(limits, Next(limits, s, m))
  {
  }

  lemma GrownLog(log: seq<Stamped>, e: Stamped)
    ensures forall i | 0 <= i < |log| :: (log + [e])[i] == log[i]
    ensures (log + [e])[|log|] == e
  {
  }

  lemma FaithfulWithNothingMore(r: Run, s: State)
    requires Faithful(r) && s.lastActivity == r.state.lastActivity && s.now >= r.state.now
    requires s.warned == r.state.warned && s.stopping == r.state.stopping
    ensures Faithful(Run(s, r.log + [], r.looks))
  {
    assert r.log + [] == r.log;
  }

  lemma FaithfulWithActivity(r: Run, s: State, e: Event)
    requires Faithful(r) && IsActivity(e) && s.lastActivity == s.now == r.state.now && !s.warned && s.stopping == r.state.stopping
    ensures Faithful(Run(s, r.log + [Stamped(e, s.now)], []))
  {
    var log := r.log + [Stamped(e, s.now)];
    GrownLog(r.log, Stamped(e, s.now));
    assert LastActivityAt(log, |r.log|, s.now) && !WarnedAfter(log, |r.log|);
    ExpiredGrows(r.log, Stamped(e, s.now));
  }

  lemma ExpiredGrows(log: seq<Stamped>, e: Stamped)
    ensures Expired(log + [e]) <==> Expired(log) || e.event == Expiry
  {
    GrownLog(log, e);
    if i :| 0 <= i < |log| && log[i].event == Expiry {
      assert (log + [e])[i].event == Expiry;
    }
    if e.event == Expiry {
      assert (log + [e])[|log|].event == Expiry;
    }
  }

  lemma WarnedGrows(log: seq<Stamped>, k: nat, e: Stamped)
    requires k < |log|
    ensures WarnedAfter(log + [e], k) <==> WarnedAfter(log, k) || e.event == Warning
  {
    GrownLog(log, e);
    if i :| k < i < |log| && log[i].event == Warning {
      assert (log + [e])[i].event == Warning;
    }
    if e.event == Warning {
      assert (log + [e])[|log|].event == Warning;
    }
  }

  lemma FaithfulWithEvent(r: Run, s: State, e: Event, looks: seq<nat>)
    requires Faithful(r) && !IsActivity(e) && s.lastActivity == r.state.lastActivity && s.now == r.state.now
    requires s.warned == (r.state.warned || e == Warning) && s.stopping == (r.state.stopping || e == Expiry)
    ensures Faithful(Run(s, r.log + [Stamped(e, s.now)], looks))
  {
    hide WarnedAfter, Expired;
    var stamped := Stamped(e, s.now);
    var k: nat :| LastActivityAt(r.log, k, r.state.lastActivity) && (r.state.warned <==> WarnedAfter(r.log, k));
    GrownLog(r.log, stamped);
    WarnedGrows(r.log, k, stamped);
    ExpiredGrows(r.log, stamped);
    assert LastActivityAt(r.log + [stamped], k, s.lastActivity);
  }

  lemma StepKeepsFaithful(limits: Limits, r: Run, m: Move)
    requires Faithful(r)
    ensures Faithful(Step(limits, r, m))
  {
    hide Faithful;
    NowIsLast(r);
    var s, s', more := r.state, Next(limits, r.state, m), Logged(limits, r.state, m);
    if m.Note? || m.FinishTransfer? {
      FaithfulWithActivity(r, s', more[0].event);
    } else if more != [] {
      FaithfulWithEvent(r, s', more[0].event, Looks(r, m));
    } else {
      LooksAreNotLogged(r, Looks(r, m));
      FaithfulWithNothingMore(r.(looks := Looks(r, m)), s');
    }
  }

  lemma NowIsLast(r: Run)
    requires Faithful(r)
    ensures r.state.lastActivity <= r.state.now
  {
  }

  lemma LooksAreNotLogged(r: Run, looks: seq<nat>)
    requires Faithful(r)
    ensures Faithful(r.(looks := looks))
  {
  }

  lemma AppendActivity(limits: Limits, log: seq<Stamped>, e: Event, at: nat)
    requires WellTimed(limits, log) && IsActivity(e) && forall i | 0 <= i < |log| :: log[i].at <= at
    ensures WellTimed(limits, log + [Stamped(e, at)])
  {
    hide ActivityBetween;
    GrownLog(log, Stamped(e, at));
    OldGapsStay(log, Stamped(e, at));
  }

  lemma AppendTransferStart(limits: Limits, log: seq<Stamped>, at: nat)
    requires WellTimed(limits, log)
    ensures WellTimed(limits, log + [Stamped(TransferStarted, at)])
  {
    hide ActivityBetween;
    GrownLog(log, Stamped(TransferStarted, at));
    OldGapsStay(log, Stamped(TransferStarted, at));
  }

  lemma OldGapsStay(log: seq<Stamped>, e: Stamped)
    ensures forall i, j | 0 <= i < j < |log| :: ActivityBetween(log, i, j) ==> ActivityBetween(log + [e], i, j)
  {
    forall i, j | 0 <= i < j < |log| && ActivityBetween(log, i, j) ensures ActivityBetween(log + [e], i, j) {
      var k :| i < k < j && k < |log| && IsActivity(log[k].event);
      assert (log + [e])[k] == log[k];
    }
  }

  lemma ActivitiesEnd(limits: Limits, log: seq<Stamped>, k: nat, last: nat)
    requires WellTimed(limits, log) && LastActivityAt(log, k, last)
    ensures forall i | 0 <= i < |log| && IsActivity(log[i].event) :: i <= k && log[i].at <= last
  {
  }

  lemma AppendWarning(limits: Limits, log: seq<Stamped>, k: nat, last: nat, at: nat)
    requires WellTimed(limits, log) && LastActivityAt(log, k, last) && at >= last + limits.warning && !WarnedAfter(log, k)
    ensures WellTimed(limits, log + [Stamped(Warning, at)])
  {
    var e := Stamped(Warning, at);
    var log' := log + [e];
    GrownLog(log, e);
    ActivitiesEnd(limits, log, k, last);
    forall i | 0 <= i < |log| && log[i].event == Warning ensures ActivityBetween(log', i, |log|) {
      assert i < k && log'[k] == log[k];
    }
    OldGapsStay(log, e);
    hide ActivityBetween;
    assert WellTimed(limits, log');
  }

  lemma AppendExpiry(limits: Limits, log: seq<Stamped>, k: nat, last: nat, at: nat)
    requires WellTimed(limits, log) && LastActivityAt(log, k, last) && at >= last + limits.timeout && !Expired(log)
    ensures WellTimed(limits, log + [Stamped(Expiry, at)])
  {
    var e := Stamped(Expiry, at);
    GrownLog(log, e);
    ActivitiesEnd(limits, log, k, last);
    OldGapsStay(log, e);
    hide ActivityBetween;
    assert WellTimed(limits, log + [e]);
  }

  lemma StepKeepsWellTimed(limits: Limits, r: Run, m: Move)
    requires Valid(limits) && Faithful(r) && WellTimed(limits, r.log)
    ensures WellTimed(limits, Step(limits, r, m).log)
  {
    hide WellTimed, LastActivityAt, WarnedAfter, Expired;
    var s, log := r.state, r.log;
    var more := Logged(limits, s, m);
    var k: nat :| LastActivityAt(log, k, s.lastActivity) && (s.warned <==> WarnedAfter(log, k));
    if more == [] {
      assert log + more == log;
    } else if IsActivity(more[0].event) {
      AppendActivity(limits, log, more[0].event, s.now);
    } else if more[0].event == TransferStarted {
      AppendTransferStart(limits, log, s.now);
    } else if more[0].event == Warning {
      AppendWarning(limits, log, k, s.lastActivity, s.now);
    } else {
      AppendExpiry(limits, log, k, s.lastActivity, s.now);
    }
  }

  // ---- transfers in the log ----

  ghost predicate TransferBetween(log: seq<Stamped>, i: nat, j: nat) {
    exists k :: i < k < j && k < |log| && log[k].event == TransferEnded
  }

  ghost predicate TransferUnderWay(log: seq<Stamped>) {
    exists i :: 0 <= i < |log| && log[i].event == TransferStarted && !TransferBetween(log, i, |log|)
  }

  /** Between the start of a transfer and its end no expiry is logged. */
  ghost predicate TransfersSpared(log: seq<Stamped>) {
    forall i, j | 0 <= i < j < |log| && log[i].event == TransferStarted && log[j].event == Expiry :: TransferBetween(log, i, j)
  }

  lemma TransferGapGrows(log: seq<Stamped>, e: Stamped, i: nat, j: nat)
    requires i < j <= |log|
    ensures TransferBetween(log + [e], i, j) <==> TransferBetween(log, i, j)
    ensures TransferBetween(log + [e], i, |log| + 1) <==> TransferBetween(log, i, |log|) || e.event == TransferEnded
  {
    GrownLog(log, e);
    if k :| i < k < j && k < |log| && log[k].event == TransferEnded {
      assert (log + [e])[k] == log[k];
    }
    if k :| i < k < |log| && k < |log| && log[k].event == TransferEnded {
      assert (log + [e])[k] == log[k];
    }
    if e.event == TransferEnded {
      assert (log + [e])[|log|].event == TransferEnded;
    }
  }

  lemma UnderWayGrows(log: seq<Stamped>, e: Stamped)
    ensures TransferUnderWay(log + [e])
       <==> e.event == TransferStarted || (TransferUnderWay(log) && e.event != TransferEnded)
  {
    hide TransferBetween;
    var log' := log + [e];
    GrownLog(log, e);
    forall i: nat | i < |log| ensures TransferBetween(log', i, |log'|) <==> TransferBetween(log, i, |log|) || e.event == TransferEnded {
      TransferGapGrows(log, e, i, |log|);
    }
    NothingAfterTheEnd(log');
    if e.event == TransferStarted {
      assert log'[|log|].event == TransferStarted && !TransferBetween(log', |log|, |log'|);
    }
    if i :| 0 <= i < |log| && log[i].event == TransferStarted && !TransferBetween(log, i, |log|) {
      assert log'[i] == log[i];
    }
  }

  lemma NothingAfterTheEnd(log: seq<Stamped>)
    ensures log != [] ==> !TransferBetween(log, |log| - 1, |log|)
  {
  }

  lemma SparedGrows(log: seq<Stamped>, e: Stamped)
    requires TransfersSpared(log) && (e.event == Expiry ==> !TransferUnderWay(log))
    ensures TransfersSpared(log + [e])
  {
    hide TransferBetween;
    var log' := log + [e];
    GrownLog(log, e);
    forall i: nat, j: nat | i < j < |log'| && log'[i].event == TransferStarted && log'[j].event == Expiry
      ensures TransferBetween(log', i, j)
    {
      assert log[i].event == TransferStarted;
      TransferGapGrows(log, e, i, j);
      assert j < |log| ==> log[j].event == Expiry;
    }
  }

  lemma StepKeepsTransfers(limits: Limits, r: Run, m: Move)
    requires TransfersSpared(r.log) && (r.state.transferActive <==> TransferUnderWay(r.log))
    ensures var r' := Step(limits, r, m);
            TransfersSpared(r'.log) && (r'.state.transferActive <==> TransferUnderWay(r'.log))
  {
    hide TransfersSpared, TransferUnderWay;
    var more := Logged(limits, r.state, m);
    if more == [] {
      assert r.log + more == r.log;
    } else {
      assert more == [more[0]];
      UnderWayGrows(r.log, more[0]);
      SparedGrows(r.log, more[0]);
    }
  }

  // ---- looks and warnings ----

  /** A look in good time to warn: the warning is due and the expiry is not. */
  ghost predicate LookedInTime(limits: Limits, lastActivity: nat, looks: seq<nat>) {
    exists i :: 0 <= i < |looks| && lastActivity + limits.warning <= looks[i] < lastActivity + limits.timeout
  }

  lemma OneMoreLook(limits: Limits, lastActivity: nat, looks: seq<nat>, at: nat)
    ensures LookedInTime(limits, lastActivity, looks + [at])
       <==> LookedInTime(limits, lastActivity, looks) || lastActivity + limits.warning <= at < lastActivity + limits.timeout
  {
    var looks' := looks + [at];
    assert looks'[|looks|] == at;
    if i :| 0 <= i < |looks| && lastActivity + limits.warning <= looks[i] < lastActivity + limits.timeout {
      assert looks'[i] == looks[i];
    }
  }

  lemma StepKeepsLooks(limits: Limits, r: Run, m: Move)
    requires Valid(limits) && r.state.lastActivity <= r.state.now
    requires r.state.warned <==> LookedInTime(limits, r.state.lastActivity, r.looks)
    ensures var r' := Step(limits, r, m); r'.state.warned <==> LookedInTime(limits, r'.state.lastActivity, r'.looks)
  {
    hide LookedInTime;
    OneMoreLook(limits, r.state.lastActivity, r.looks, r.state.now);
    NeverLooked(limits, r.state.now);
  }

  lemma NeverLooked(limits: Limits, lastActivity: nat)
    ensures !LookedInTime(limits, lastActivity, [])
  {
  }

  ghost predicate Inv(limits: Limits, r: Run) {
    && Current(limits, r.state) && Faithful(r) && WellTimed(limits, r.log)
    && TransfersSpared(r.log) && (r.state.transferActive <==> TransferUnderWay(r.log))
    && (r.state.warned <==> LookedInTime(limits, r.state.lastActivity, r.looks))
  }

  lemma StepKeepsInv(limits: Limits, r: Run, m: Move)
    requires Valid(limits) && Inv(limits, r)
    ensures Inv(limits, Step(limits, r, m))
  {
    hide Current, Faithful, WellTimed, TransfersSpared, TransferUnderWay, LookedInTime, Next, Logged, Looks;
    StepKeepsCurrent(limits, r.state, m);
    NowIsLast(r);
    StepKeepsFaithful(limits, r, m);
    StepKeepsWellTimed(limits, r, m);
    StepKeepsTransfers(limits, r, m);
    StepKeepsLooks(limits, r, m);
  }

  lemma {:induction false} RunsKeepInv(limits: Limits, r: Run, moves: seq<Move>)
    requires Valid(limits) && Inv(limits, r)
    ensures Inv(limits, After(limits, r, moves))
    decreases |moves|
  {
    hide Inv, Step;
    if moves != [] {
      StepKeepsInv(limits, r, moves[0]);
      RunsKeepInv(limits, Step(limits, r, moves[0]), moves[1..]);
    }
  }

  lemma StartHasInv(limits: Limits, at: nat)
    ensures Inv(limits, Start(at))
  {
    assert LastActivityAt(Start(at).log, 0, at);
  }

  // ---- the session's methods ----

  /** `run` is the session's history: every method is one step of it, and keeps what holds
      of all runs. */
  class Session {
    const limits: Limits
    var lastActivity: nat
    var transferActive: bool
    var warned: bool
    var token: bool
    var stopping: bool
    ghost var run: Run

    ghost predicate InStep()
      reads this
    {
      && Valid(limits) && Inv(limits, run)
      && run.state == State(run.state.now, lastActivity, transferActive, warned, token, stopping, run.state.monitor)
    }

    constructor (limits: Limits, now: nat)
      requires Valid(limits)
      ensures InStep() && run == Start(now) && this.limits == limits
    {
      hide Inv;
      this.limits := limits;
      lastActivity, transferActive, warned, token, stopping := now, false, false, false, false;
      run := Start(now);
      new;
      StartHasInv(limits, now);
    }

    method NoteSessionActivityLocked(now: nat)
      modifies this`lastActivity, this`warned, this`token
      ensures lastActivity == now && !warned && token
    {
      lastActivity := now;
      warned := false;
      token := true;
    }

    /** Activity: a monitor that is blocked will look again. */
    method NoteSessionActivity(now: nat)
      requires InStep() && now == run.state.now
      modifies this
      ensures InStep() && run == Step(limits, old(run), Note)
      ensures token && LastActivityAt(run.log, |run.log| - 1, now)
    {
      hide Inv;
      NoteSessionActivityLocked(now);
      StepKeepsInv(limits, run, Note);
      run := Step(limits, run, Note);
    }

    /** From here to the end of the transfer nothing expires. */
    method BeginTransfer()
      requires InStep()
      modifies this
      ensures InStep() && run == Step(limits, old(run), StartTransfer)
      ensures token && TransferUnderWay(run.log)
    {
      transferActive := true;
      token := true;
      StepKeepsInv(limits, run, StartTransfer);
      run := Step(limits, run, StartTransfer);
    }

    method FinishTransferLocked(now: nat)
      requires InStep() && now == run.state.now
      modifies this
      ensures InStep() && run == Step(limits, old(run), FinishTransfer)
      ensures token && !TransferUnderWay(run.log) && LastActivityAt(run.log, |run.log| - 1, now)
    {
      transferActive := false;
      NoteSessionActivityLocked(now);
      StepKeepsInv(limits, run, FinishTransfer);
      run := Step(limits, run, FinishTransfer);
    }

    /** The blocked monitor takes the token. */
    method Woken()
      requires InStep() && Enabled(run.state, Wake)
      modifies this
      ensures InStep() && run == Step(limits, old(run), Wake) && run.state.monitor.Looking?
    {
      token := false;
      StepKeepsInv(limits, run, Wake);
      run := Step(limits, run, Wake);
    }

    /** Time passes, the timer fires, the session closes. */
    ghost method Happens(m: Move)
      requires InStep() && (m.Tick? || m.Fire? || m.Close?)
      modifies this`run
      ensures InStep() && run == Step(limits, old(run), m)
    {
      StepKeepsInv(limits, run, m);
      run := Step(limits, run, m);
    }

    /** One turn of the monitor's loop, up to where it unlocks. It expires only a session
        without a transfer whose time is up, warns once, and sets its timer to a later time. */
    method LookOnce(now: nat) returns (monitor: Monitor)
      requires InStep() && now == run.state.now && run.state.monitor.Looking?
      modifies this
      ensures InStep() && run == Step(limits, old(run), Look) && monitor == run.state.monitor
      ensures stopping && !old(stopping) ==> !transferActive && now >= lastActivity + limits.timeout
      ensures warned && !old(warned) ==> !stopping && now >= lastActivity + limits.warning
      ensures monitor.Armed? ==> now < monitor.deadline
    {
      hide Inv;
      StepKeepsInv(limits, run, Look);
      NotInTheFuture(limits, run);
      run := Step(limits, run, Look);
      if stopping {
        return Gone;
      }
      if transferActive {
        return AwaitingWake;
      }
      var elapsed := now - lastActivity;
      if elapsed >= limits.timeout {
        stopping := true;
        return Gone;
      }
      if elapsed >= limits.warning && !warned {
        warned := true;
        return Looking;
      }
      var deadline := lastActivity + limits.warning;
      if warned {
        deadline := lastActivity + limits.timeout;
      }
      return Armed(deadline);
    }
  }

  lemma NotInTheFuture(limits: Limits, r: Run)
    requires Inv(limits, r)
    ensures r.state.lastActivity <= r.state.now
  {
  }

  /** In every interleaving a monitor blocked on values that have changed since it looked
      has a wake token pending. */
  lemma NoLostWakeUp(limits: Limits, at: nat, moves: seq<Move>)
    requires Valid(limits)
    ensures var s := After(limits, Start(at), moves).state;
            && (s.monitor.AwaitingWake? && !s.transferActive ==> s.token)
            && (s.monitor.Armed? && (s.transferActive || s.monitor.deadline != Due(limits, s.lastActivity, s.warned)) ==> s.token)
  {
    hide After, Faithful, WellTimed;
    StartHasInv(limits, at);
    RunsKeepInv(limits, Start(at), moves);
  }

  /** In every run the log shows at most one warning between two activities, no warning
      and no expiry before its time, and at most one expiry. */
  lemma WarningsAndExpiryAreWellTimed(limits: Limits, at: nat, moves: seq<Move>)
    requires Valid(limits)
    ensures WellTimed(limits, After(limits, Start(at), moves).log)
  {
    hide After, Faithful, WellTimed, Current;
    StartHasInv(limits, at);
    RunsKeepInv(limits, Start(at), moves);
  }

  /** In no run does a session expire between the start of a transfer and its end. */
  lemma NoExpiryDuringTransfer(limits: Limits, at: nat, moves: seq<Move>)
    requires Valid(limits)
    ensures TransfersSpared(After(limits, Start(at), moves).log)
  {
    hide After, Faithful, WellTimed, Current, TransfersSpared, TransferUnderWay, LookedInTime;
    StartHasInv(limits, at);
    RunsKeepInv(limits, Start(at), moves);
  }

  /** And none that is due is missed: at most two steps of the monitor away it is gone. */
  lemma DueExpiryHappens(limits: Limits, at: nat, moves: seq<Move>)
    requires Valid(limits)
    ensures var s := After(limits, Start(at), moves).state;
            !s.transferActive && s.now >= s.lastActivity + limits.timeout && !s.stopping && !s.monitor.Gone? ==>
              || Next(limits, s, Look).stopping
              || (Enabled(s, Wake) && Next(limits, Next(limits, s, Wake), Look).stopping)
              || (Enabled(s, Fire) && Next(limits, Next(limits, s, Fire), Look).stopping)
  {
    hide After, Faithful, WellTimed;
    StartHasInv(limits, at);
    RunsKeepInv(limits, Start(at), moves);
  }

  // ---- a warning before the end ----

  /** In every run a session that expires has been warned since its last activity exactly
      when the monitor looked, with no transfer active, once the warning was due and
      before the expiry was. */
  lemma ExpiryIsWarnedIff(limits: Limits, at: nat, moves: seq<Move>, m: Move)
    requires Valid(limits)
    ensures var r := After(limits, Start(at), moves);
            !r.state.stopping && Next(limits, r.state, m).stopping ==>
              exists k :: LastActivityAt(r.log, k, r.state.lastActivity)
                          && (WarnedAfter(r.log, k) <==> LookedInTime(limits, r.state.lastActivity, r.looks))
  {
    hide After, WellTimed, Current, TransfersSpared, TransferUnderWay, LookedInTime, WarnedAfter, LastActivityAt;
    StartHasInv(limits, at);
    RunsKeepInv(limits, Start(at), moves);
    var r := After(limits, Start(at), moves);
    var k: nat :| LastActivityAt(r.log, k, r.state.lastActivity) && (r.state.warned <==> WarnedAfter(r.log, k));
  }

  /** The monitor is not late: time passes only while it is blocked with no token, and
      not beyond its deadline. */
  predicate Punctual(s: State, m: Move) {
    m.Tick? ==>
      || s.monitor.Gone?
      || (!s.token && (s.monitor.AwaitingWake? || (s.monitor.Armed? && s.now + m.elapsed <= s.monitor.deadline)))
  }

  ghost predicate AllPunctual(limits: Limits, r: Run, moves: seq<Move>)
    decreases |moves|
  {
    moves == [] || (Punctual(r.state, moves[0]) && AllPunctual(limits, Step(limits, r, moves[0]), moves[1..]))
  }

  /** Until it is warned an idle session is not past its warning time. */
  ghost predicate NotOverdue(limits: Limits, s: State) {
    && s.lastActivity <= s.now
    && (!s.monitor.Gone? && !s.transferActive && !s.warned ==> s.now <= s.lastActivity + limits.warning)
  }

  lemma {:induction false} PunctualRunsAreNotOverdue(limits: Limits, r: Run, moves: seq<Move>)
    requires Valid(limits) && Current(limits, r.state) && NotOverdue(limits, r.state) && AllPunctual(limits, r, moves)
    ensures NotOverdue(limits, After(limits, r, moves).state)
    decreases |moves|
  {
    if moves != [] {
      StepKeepsCurrent(limits, r.state, moves[0]);
      PunctualRunsAreNotOverdue(limits, Step(limits, r, moves[0]), moves[1..]);
    }
  }

  /** A punctual monitor never lets a session expire that it has not warned. */
  lemma PunctualMonitorWarnsFirst(limits: Limits, at: nat, moves: seq<Move>, m: Move)
    requires Valid(limits) && AllPunctual(limits, Start(at), moves)
    ensures var s := After(limits, Start(at), moves).state;
            !s.stopping && Next(limits, s, m).stopping ==> s.warned
  {
    hide After, AllPunctual;
    PunctualRunsAreNotOverdue(limits, Start(at), moves);
  }

  /** A late one does: after a pause as long as the timeout it expires unwarned. */
  lemma LateMonitorSkipsTheWarning(limits: Limits, at: nat)
    requires Valid(limits)
    ensures After(limits, Start(at), [Look, Tick(limits.timeout), Fire, Look]).log
         == [Stamped(Activity, at), Stamped(Expiry, at + limits.timeout)]
  {
    var moves := [Look, Tick(limits.timeout), Fire, Look];
    hide After;
    var r1 := Step(limits, Start(at), Look);
    assert r1 == Run(State(at, at, false, false, false, false, Armed(at + limits.warning)), Start(at).log, [at]);
    var r2 := Step(limits, r1, Tick(limits.timeout));
    assert r2 == Run(State(at + limits.timeout, at, false, false, false, false, Armed(at + limits.warning)), Start(at).log, [at]);
    var r3 := Step(limits, r2, Fire);
    assert Step(limits, r3, Look).log == [Stamped(Activity, at), Stamped(Expiry, at + limits.timeout)];
    FourSteps(limits, Start(at), moves);
  }

  lemma FourSteps(limits: Limits, r: Run, moves: seq<Move>)
    requires |moves| == 4
    ensures After(limits, r, moves) == Step(limits, Step(limits, Step(limits, Step(limits, r, moves[0]), moves[1]), moves[2]), moves[3])
  {
    hide Step;
    var r1 := Step(limits, r, moves[0]);
    var r2 := Step(limits, r1, moves[1]);
    var r3 := Step(limits, r2, moves[2]);
    assert After(limits, r3, moves[3..]) == After(limits, Step(limits, r3, moves[3]), []);
    assert After(limits, r2, moves[2..]) == After(limits, r3, moves[3..]);
    assert After(limits, r1, moves[1..]) == After(limits, r2, moves[2..]);
  }
}
